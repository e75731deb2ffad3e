/** Uploading a JSONL data set line by line with bounded reads, and checking the stored file again when
    a job that uses it is scheduled. */
module JsonlIngest {
  import opened Contract

  const MAX_DATASET_BYTES := 5 * 1024 * 1024 * 1024
  const MAX_LINE_BYTES := 16 * 1024 * 1024
  const MAX_EVALUATION_DATASET_BYTES := 256 * 1024 * 1024
  const MAX_EVALUATION_LINE_BYTES := 1_048_576
  const MAX_TRAINING_RECORDS := 10_000_000
  const MAX_EVALUATION_RECORDS := 200_000
  const MAX_SCHEMA_FIELDS := 256
  const MAX_FIELD_NAME_LENGTH := 128
  const DRAIN_BYTES := 1024 * 1024
  const LINE_FEED: Byte := 10

  type Byte = b: int | 0 <= b < 256

  type Bytes = seq<Byte>

  datatype Kind = Cpt | Sft | EvaluationSet

  datatype Json = Null | Bool(b: bool) | Number(n: int) | Text(s: string) | Array(items: seq<Json>) | Obj(fields: map<string, Json>)

  datatype Format = CptText | CptContent | SftMessages | SftConversations | SftAlpaca

  /** JSON decoding (no duplicate fields, finite numbers), and the reading of a decoded evaluation row
      at a line number: its sample id, or nothing if the row is refused. */
  datatype Reader = Reader(decode: Bytes -> Option<Json>, sample: (Json, nat) -> Option<string>)

  function LineLimit(kind: Kind): nat {
    if kind == EvaluationSet then MAX_EVALUATION_LINE_BYTES else MAX_LINE_BYTES
  }

  function ByteLimit(kind: Kind): nat {
    if kind == EvaluationSet then MAX_EVALUATION_DATASET_BYTES else MAX_DATASET_BYTES
  }

  function RecordLimit(kind: Kind): nat {
    if kind == EvaluationSet then MAX_EVALUATION_RECORDS else MAX_TRAINING_RECORDS
  }

  // ---- One training record ----

  predicate IsBlank(c: char) {
    || '\t' <= c <= '\r' || '\U{1C}' <= c <= ' ' || c == '\U{85}' || c == '\U{A0}' || c == '\U{1680}'
    || '\U{2000}' <= c <= '\U{200A}' || c == '\U{2028}' || c == '\U{2029}' || c == '\U{202F}' || c == '\U{205F}' || c == '\U{3000}'
  }

  predicate HasText(fields: map<string, Json>, name: string) {
    name in fields && fields[name].Text? && exists i :: 0 <= i < |fields[name].s| && !IsBlank(fields[name].s[i])
  }

  predicate HasArray(fields: map<string, Json>, name: string) {
    name in fields && fields[name].Array?
  }

  predicate ValidTurns(items: seq<Json>, role: string, content: string) {
    items != [] && forall i :: 0 <= i < |items| ==>
      items[i].Obj? && HasText(items[i].fields, role) && HasText(items[i].fields, content)
  }

  /** The one format of a training record, or nothing if it has none or more than one. */
  function TrainingFormat(item: Json, kind: Kind): Option<Format> {
    if !item.Obj? then None
    else
      var f := item.fields;
      match kind
      case Cpt =>
        if HasText(f, "text") == HasText(f, "content") then None
        else Some(if HasText(f, "text") then CptText else CptContent)
      case Sft =>
        var alpaca := "instruction" in f && f["instruction"].Text? && "output" in f && f["output"].Text?;
        if HasArray(f, "messages") && !HasArray(f, "conversations") && !alpaca then
          if ValidTurns(f["messages"].items, "role", "content") then Some(SftMessages) else None
        else if HasArray(f, "conversations") && !HasArray(f, "messages") && !alpaca then
          if ValidTurns(f["conversations"].items, "from", "value") then Some(SftConversations) else None
        else if alpaca && !HasArray(f, "messages") && !HasArray(f, "conversations") then
          if HasText(f, "instruction") && HasText(f, "output") && ("input" in f ==> f["input"].Text?) then Some(SftAlpaca) else None
        else None
      case EvaluationSet => None
  }

  predicate FormatOfKind(f: Format, kind: Kind) {
    match kind
    case Cpt => f == CptText || f == CptContent
    case Sft => f == SftMessages || f == SftConversations || f == SftAlpaca
    case EvaluationSet => false
  }

  /** The record shows this format, whether or not its content is valid. */
  predicate Shows(fields: map<string, Json>, f: Format) {
    match f
    case CptText => HasText(fields, "text")
    case CptContent => HasText(fields, "content")
    case SftMessages => HasArray(fields, "messages")
    case SftConversations => HasArray(fields, "conversations")
    case SftAlpaca => "instruction" in fields && fields["instruction"].Text? && "output" in fields && fields["output"].Text?
  }

  predicate ContentValid(fields: map<string, Json>, f: Format)
    requires Shows(fields, f)
  {
    match f
    case CptText | CptContent => true
    case SftMessages => ValidTurns(fields["messages"].items, "role", "content")
    case SftConversations => ValidTurns(fields["conversations"].items, "from", "value")
    case SftAlpaca => HasText(fields, "instruction") && HasText(fields, "output") && ("input" in fields ==> fields["input"].Text?)
  }

  /** A record has a format exactly when it shows that one alone of its kind, with valid content. */
  lemma FormatIsTheOnlyOneShown(item: Json, kind: Kind, f: Format)
    ensures TrainingFormat(item, kind) == Some(f) <==>
      && item.Obj? && FormatOfKind(f, kind) && Shows(item.fields, f) && ContentValid(item.fields, f)
      && forall g :: FormatOfKind(g, kind) && Shows(item.fields, g) ==> g == f
  {
    if item.Obj? && FormatOfKind(f, kind) {
      var fields := item.fields;
      assert kind == Cpt ==> FormatOfKind(CptText, kind) && FormatOfKind(CptContent, kind);
      assert kind == Sft ==> FormatOfKind(SftMessages, kind) && FormatOfKind(SftConversations, kind) && FormatOfKind(SftAlpaca, kind);
      assert Shows(fields, CptText) == HasText(fields, "text") && Shows(fields, CptContent) == HasText(fields, "content");
      assert Shows(fields, SftMessages) == HasArray(fields, "messages");
      assert Shows(fields, SftConversations) == HasArray(fields, "conversations");
      assert Shows(fields, SftAlpaca) || !Shows(fields, SftAlpaca);
    }
  }

  // ---- Physical lines ----

  /** The length of the first physical line, its line feed included. */
  function LineLength(text: Bytes): (n: nat)
    ensures n <= |text| && (text != [] ==> n >= 1)
    ensures n < |text| ==> text[n - 1] == LINE_FEED
    ensures forall i :: 0 <= i < n - 1 ==> text[i] != LINE_FEED
  {
    if text == [] then 0 else if text[0] == LINE_FEED then 1 else 1 + LineLength(text[1..])
  }

  function Lines(text: Bytes): seq<Bytes> {
    if text == [] then [] else [text[..LineLength(text)]] + Lines(text[LineLength(text)..])
  }

  function Flatten(lines: seq<Bytes>): Bytes {
    if lines == [] then [] else Flatten(lines[..|lines| - 1]) + lines[|lines| - 1]
  }

  lemma {:induction false} FlattenOfConcat(a: seq<Bytes>, b: seq<Bytes>)
    ensures Flatten(a + b) == Flatten(a) + Flatten(b)
  {
    if b == [] {
      assert a + b == a;
    } else {
      FlattenOfConcat(a, b[..|b| - 1]);
      assert (a + b)[..|a + b| - 1] == a + b[..|b| - 1];
    }
  }

  /** The lines are the text, cut after each line feed. */
  lemma {:induction false} LinesOfText(text: Bytes)
    ensures Flatten(Lines(text)) == text
  {
    if text != [] {
      var n := LineLength(text);
      LinesOfText(text[n..]);
      FlattenOfConcat([text[..n]], Lines(text[n..]));
      FlattenOne(text[..n]);
      assert text == text[..n] + text[n..];
    }
  }

  lemma FlattenOne(line: Bytes)
    ensures Flatten([line]) == line
  {
    assert [line][..0] == [];
    assert Flatten([]) + line == line;
  }

  predicate BlankByte(b: Byte) {
    9 <= b <= 13 || b == 32
  }

  predicate Blank(line: Bytes) {
    forall i :: 0 <= i < |line| ==> BlankByte(line[i])
  }

  function NonBlank(lines: seq<Bytes>): nat {
    if lines == [] then 0
    else NonBlank(lines[..|lines| - 1]) + if Blank(lines[|lines| - 1]) then 0 else 1
  }

  // ---- What makes a data set acceptable ----

  /** What an acceptable line holds; a training record has no sample id, an evaluation row no format. */
  datatype Reading = Rejected | Record(keys: set<string>, format: Option<Format>, id: string)

  function Read(reader: Reader, kind: Kind, line: Bytes, number: nat): Reading {
    match reader.decode(line)
    case None => Rejected
    case Some(item) => ReadItem(reader, kind, item, number)
  }

  function ReadItem(reader: Reader, kind: Kind, item: Json, number: nat): Reading {
    var keys := if item.Obj? then item.fields.Keys else {};
    if kind == EvaluationSet && item.Obj? then
      match reader.sample(item, number)
      case None => Rejected
      case Some(id) => Record(keys, None, id)
    else match TrainingFormat(item, kind)
      case None => Rejected
      case Some(f) => Record(keys, Some(f), "")
  }

  /** The line on its own. */
  predicate LineFits(reader: Reader, kind: Kind, line: Bytes, number: nat) {
    && |line| <= LineLimit(kind)
    && if Blank(line) then kind == EvaluationSet
       else
         var r := Read(reader, kind, line, number);
         r.Record? && forall k <- r.keys :: |k| <= MAX_FIELD_NAME_LENGTH
  }

  predicate LinesFit(reader: Reader, kind: Kind, lines: seq<Bytes>) {
    forall i :: 0 <= i < |lines| ==> LineFits(reader, kind, lines[i], i + 1)
  }

  function RecordAt(reader: Reader, kind: Kind, lines: seq<Bytes>, i: nat): Reading
    requires i < |lines|
  {
    if Blank(lines[i]) then Rejected else Read(reader, kind, lines[i], i + 1)
  }

  /** Two records of one data set agree: same format, or different sample ids. */
  predicate Compatible(kind: Kind, a: Reading, b: Reading) {
    a.Record? && b.Record? ==> if kind == EvaluationSet then a.id != b.id else a.format == b.format
  }

  predicate LinesAgree(reader: Reader, kind: Kind, lines: seq<Bytes>) {
    forall i, j :: 0 <= i < j < |lines| ==> Compatible(kind, RecordAt(reader, kind, lines, i), RecordAt(reader, kind, lines, j))
  }

  function Fields(reader: Reader, kind: Kind, lines: seq<Bytes>): set<string> {
    if lines == [] then {}
    else
      var r := RecordAt(reader, kind, lines, |lines| - 1);
      Fields(reader, kind, lines[..|lines| - 1]) + if r.Record? then r.keys else {}
  }

  predicate Clean(reader: Reader, kind: Kind, lines: seq<Bytes>) {
    && LinesFit(reader, kind, lines) && LinesAgree(reader, kind, lines)
    && |Fields(reader, kind, lines)| <= MAX_SCHEMA_FIELDS
  }

  predicate Acceptable(reader: Reader, kind: Kind, text: Bytes) {
    && |text| <= ByteLimit(kind) && Clean(reader, kind, Lines(text))
    && 1 <= NonBlank(Lines(text)) <= RecordLimit(kind)
  }

  function FormatOf(reader: Reader, kind: Kind, lines: seq<Bytes>): Option<Format> {
    if lines == [] then None
    else
      var before := FormatOf(reader, kind, lines[..|lines| - 1]);
      var r := RecordAt(reader, kind, lines, |lines| - 1);
      if before.Some? || !r.Record? then before else r.format
  }

  /** The row kept about a stored data set.  The digest is represented by the digested bytes. */
  datatype Dataset = Dataset(recordCount: nat, sizeBytes: nat, sha256: Bytes, fields: set<string>, format: Option<Format>)

  function DatasetOf(reader: Reader, kind: Kind, text: Bytes): Dataset {
    Dataset(NonBlank(Lines(text)), |text|, text, Fields(reader, kind, Lines(text)),
            if kind == EvaluationSet then None else FormatOf(reader, kind, Lines(text)))
  }

  // ---- One more line ----

  lemma PrefixRecord(reader: Reader, kind: Kind, lines: seq<Bytes>, line: Bytes, i: nat)
    requires i < |lines|
    ensures RecordAt(reader, kind, lines + [line], i) == RecordAt(reader, kind, lines, i)
  {
  }

  /** The record on a new last line agrees with all records before it. */
  predicate AgreesWith(reader: Reader, kind: Kind, lines: seq<Bytes>, line: Bytes) {
    forall i :: 0 <= i < |lines| ==>
      Compatible(kind, RecordAt(reader, kind, lines, i), RecordAt(reader, kind, lines + [line], |lines|))
  }

  lemma FitExtends(reader: Reader, kind: Kind, lines: seq<Bytes>, line: Bytes)
    ensures LinesFit(reader, kind, lines + [line]) <==> LinesFit(reader, kind, lines) && LineFits(reader, kind, line, |lines| + 1)
  {
    var next := lines + [line];
    if LinesFit(reader, kind, next) {
      assert LineFits(reader, kind, next[|lines|], |lines| + 1);
      forall i | 0 <= i < |lines| ensures LineFits(reader, kind, lines[i], i + 1) {
        assert LineFits(reader, kind, next[i], i + 1);
      }
    }
  }

  lemma AgreeExtends(reader: Reader, kind: Kind, lines: seq<Bytes>, line: Bytes)
    ensures LinesAgree(reader, kind, lines + [line]) <==> LinesAgree(reader, kind, lines) && AgreesWith(reader, kind, lines, line)
  {
    var next := lines + [line];
    forall i | 0 <= i < |lines| ensures RecordAt(reader, kind, next, i) == RecordAt(reader, kind, lines, i) {
      PrefixRecord(reader, kind, lines, line, i);
    }
    if LinesAgree(reader, kind, next) {
      forall i, j | 0 <= i < j < |lines|
        ensures Compatible(kind, RecordAt(reader, kind, lines, i), RecordAt(reader, kind, lines, j))
      {
        assert Compatible(kind, RecordAt(reader, kind, next, i), RecordAt(reader, kind, next, j));
      }
    }
  }

  lemma CleanExtends(reader: Reader, kind: Kind, lines: seq<Bytes>, line: Bytes)
    ensures Clean(reader, kind, lines + [line]) <==>
      && Clean(reader, kind, lines) && LineFits(reader, kind, line, |lines| + 1) && AgreesWith(reader, kind, lines, line)
      && |Fields(reader, kind, lines + [line])| <= MAX_SCHEMA_FIELDS
  {
    FitExtends(reader, kind, lines, line);
    AgreeExtends(reader, kind, lines, line);
    FieldsGrow(reader, kind, lines, line);
  }

  lemma FieldsGrow(reader: Reader, kind: Kind, lines: seq<Bytes>, line: Bytes)
    ensures Fields(reader, kind, lines) <= Fields(reader, kind, lines + [line])
    ensures |Fields(reader, kind, lines)| <= |Fields(reader, kind, lines + [line])|
  {
    assert (lines + [line])[..|lines|] == lines;
    SubsetSize(Fields(reader, kind, lines), Fields(reader, kind, lines + [line]));
  }

  lemma SubsetSize<T>(a: set<T>, b: set<T>)
    requires a <= b
    ensures |a| <= |b|
  {
    assert b == a + (b - a);
  }

  lemma {:induction false} NonBlankPrefix(lines: seq<Bytes>, rest: seq<Bytes>)
    ensures NonBlank(lines) <= NonBlank(lines + rest)
  {
    if rest == [] {
      assert lines + rest == lines;
    } else {
      assert (lines + rest)[..|lines + rest| - 1] == lines + rest[..|rest| - 1];
      NonBlankPrefix(lines, rest[..|rest| - 1]);
    }
  }

  function Ids(reader: Reader, kind: Kind, lines: seq<Bytes>): set<string> {
    set i | 0 <= i < |lines| && RecordAt(reader, kind, lines, i).Record? :: RecordAt(reader, kind, lines, i).id
  }

  lemma {:induction false} FormatOfAgreeing(reader: Reader, kind: Kind, lines: seq<Bytes>, i: nat)
    requires kind != EvaluationSet && LinesAgree(reader, kind, lines) && i < |lines|
    ensures RecordAt(reader, kind, lines, i).Record? ==> FormatOf(reader, kind, lines) == RecordAt(reader, kind, lines, i).format
  {
    var (init, last) := (lines[..|lines| - 1], lines[|lines| - 1]);
    assert lines == init + [last];
    AgreeExtends(reader, kind, init, last);
    forall k | 0 <= k < |init| ensures RecordAt(reader, kind, init, k) == RecordAt(reader, kind, lines, k) {
      PrefixRecord(reader, kind, init, last, k);
    }
    if i < |init| {
      FormatOfAgreeing(reader, kind, init, i);
    } else if FormatOf(reader, kind, init).Some? {
      var k := FormatIsFrom(reader, kind, init);
      FormatOfAgreeing(reader, kind, init, k);
      assert Compatible(kind, RecordAt(reader, kind, lines, k), RecordAt(reader, kind, lines, i));
    }
  }

  lemma {:induction false} FormatIsFrom(reader: Reader, kind: Kind, lines: seq<Bytes>) returns (i: nat)
    requires FormatOf(reader, kind, lines).Some?
    ensures i < |lines| && RecordAt(reader, kind, lines, i).Record?
            && RecordAt(reader, kind, lines, i).format == FormatOf(reader, kind, lines)
  {
    var (init, last) := (lines[..|lines| - 1], lines[|lines| - 1]);
    assert lines == init + [last];
    if FormatOf(reader, kind, init).Some? {
      i := FormatIsFrom(reader, kind, init);
      PrefixRecord(reader, kind, init, last, i);
    } else {
      i := |lines| - 1;
    }
  }

  /** The program compares a new record only with the first format, or with the ids seen so far. */
  lemma AgreementIsCheap(reader: Reader, kind: Kind, lines: seq<Bytes>, line: Bytes)
    requires LinesAgree(reader, kind, lines)
    ensures var r := RecordAt(reader, kind, lines + [line], |lines|);
            AgreesWith(reader, kind, lines, line) <==>
            (r.Record? ==> if kind == EvaluationSet then r.id !in Ids(reader, kind, lines)
                           else FormatOf(reader, kind, lines).None? || FormatOf(reader, kind, lines) == r.format)
  {
    var r := RecordAt(reader, kind, lines + [line], |lines|);
    if r.Record? && kind != EvaluationSet {
      if FormatOf(reader, kind, lines).Some? {
        var k := FormatIsFrom(reader, kind, lines);
        assert Compatible(kind, RecordAt(reader, kind, lines, k), r) <==> FormatOf(reader, kind, lines) == r.format;
      }
      forall i | 0 <= i < |lines| && RecordAt(reader, kind, lines, i).Record?
        ensures FormatOf(reader, kind, lines) == RecordAt(reader, kind, lines, i).format
      {
        FormatOfAgreeing(reader, kind, lines, i);
      }
      forall i | 0 <= i < |lines| && RecordAt(reader, kind, lines, i).Record?
        ensures FormatOf(reader, kind, lines).Some?
      {
        ReadGivesFormat(reader, kind, lines[i], i + 1);
      }
    }
  }

  lemma ReadGivesFormat(reader: Reader, kind: Kind, line: Bytes, number: nat)
    requires kind != EvaluationSet && Read(reader, kind, line, number).Record?
    ensures Read(reader, kind, line, number).format.Some?
  {
  }

  lemma OneMore(reader: Reader, kind: Kind, lines: seq<Bytes>, line: Bytes)
    ensures NonBlank(lines + [line]) == NonBlank(lines) + if Blank(line) then 0 else 1
    ensures Flatten(lines + [line]) == Flatten(lines) + line
    ensures var r := if Blank(line) then Rejected else Read(reader, kind, line, |lines| + 1);
            && RecordAt(reader, kind, lines + [line], |lines|) == r
            && Fields(reader, kind, lines + [line]) == Fields(reader, kind, lines) + (if r.Record? then r.keys else {})
            && Ids(reader, kind, lines + [line]) == Ids(reader, kind, lines) + (if r.Record? then {r.id} else {})
            && FormatOf(reader, kind, lines + [line])
               == if FormatOf(reader, kind, lines).Some? || !r.Record? then FormatOf(reader, kind, lines) else r.format
  {
    assert (lines + [line])[..|lines|] == lines;
    forall i | 0 <= i < |lines| ensures RecordAt(reader, kind, lines + [line], i) == RecordAt(reader, kind, lines, i) {
      PrefixRecord(reader, kind, lines, line, i);
    }
  }

  // ---- The upload as the program runs it ----

  lemma {:induction false} LineLengthSuffix(text: Bytes, k: nat)
    requires k < LineLength(text)
    ensures LineLength(text[k..]) == LineLength(text) - k
  {
    if k > 0 {
      LineLengthSuffix(text[1..], k - 1);
      assert text[1..][k - 1..] == text[k..];
    }
  }

  /** How much of a line is still to be read when `last` was its last byte so far. */
  function Remaining(last: Byte, rest: Bytes): (n: nat)
    ensures n <= |rest|
  {
    if last == LINE_FEED then 0 else LineLength(rest)
  }

  lemma SliceAgain(bytes: Bytes, i: nat, n: nat)
    requires i + n <= |bytes|
    ensures bytes[i..][n..] == bytes[i + n..]
  {
  }

  lemma ReadingShortens(rest: Bytes, j: nat)
    requires 0 < j <= LineLength(rest)
    ensures Remaining(rest[j - 1], rest[j..]) == LineLength(rest) - j
  {
    var n := LineLength(rest);
    if j < n {
      LineLengthSuffix(rest, j);
      assert rest[j - 1] != LINE_FEED;
    } else if n < |rest| {
      assert rest[n - 1] == LINE_FEED;
    }
  }

  /** A file opened for reading. */
  class Source {
    const bytes: Bytes
    var pos: nat

    ghost predicate Valid()
      reads this
    {
      pos <= |bytes|
    }

    ghost function Rest(): Bytes
      requires Valid()
      reads this
    {
      bytes[pos..]
    }

    constructor (bytes: Bytes)
      ensures Valid() && this.bytes == bytes && Rest() == bytes
    {
      this.bytes, pos := bytes, 0;
    }

    /** At most `limit` bytes, up to and including the next line feed; nothing at the end of the file. */
    method ReadLine(limit: nat) returns (line: Bytes)
      requires Valid()
      modifies this
      ensures Valid()
      ensures var n := LineLength(old(Rest()));
              var k := if n <= limit then n else limit;
              line == old(Rest())[..k] && Rest() == old(Rest())[k..]
      ensures pos == old(pos) + |line|
    {
      ghost var (rest, start) := (Rest(), pos);
      line := [];
      while |line| < limit && pos < |bytes| && (line == [] || line[|line| - 1] != LINE_FEED)
        invariant pos == start + |line| <= |bytes| && |line| <= limit && |line| <= LineLength(rest)
        invariant line == rest[..|line|]
        decreases limit - |line|
      {
        assert rest[|line|] == bytes[pos];
        line := line + [bytes[pos]];
        pos := pos + 1;
      }
      assert Rest() == rest[|line|..];
    }

    /** Read one more piece of a line: how many bytes, and the last of them. */
    method DrainPiece(limit: nat) returns (count: nat, end: Byte)
      requires Valid()
      modifies this
      ensures Valid() && pos == old(pos) + count && (count == 0 <==> old(Rest()) == [])
      ensures count <= LineLength(old(Rest()))
      ensures count > 0 ==> Remaining(end, Rest()) == LineLength(old(Rest())) - count
    {
      ghost var rest := Rest();
      var drained := ReadLine(if DRAIN_BYTES < limit + 1 then DRAIN_BYTES else limit + 1);
      count, end := |drained|, 0;
      if drained != [] {
        ReadingShortens(rest, |drained|);
        end := drained[|drained| - 1];
      }
    }

    /** Read to the end of a line whose last byte so far is `last`, in bounded pieces. */
    method Drain(limit: nat, last: Byte, total: nat, byteLimit: nat) returns (total': nat, given: bool)
      requires Valid() && total <= byteLimit
      modifies this
      ensures Valid()
      ensures var n := Remaining(last, old(Rest()));
              (given <==> total + n <= byteLimit) && (given ==> Rest() == old(Rest())[n..] && total' == total + n)
    {
      ghost var n := Remaining(last, Rest());
      var end := last;
      total', given := total, true;
      while end != LINE_FEED
        invariant Valid() && given && total' <= byteLimit
        invariant total' - total == pos - old(pos) == n - Remaining(end, Rest())
        decreases |bytes| - pos
      {
        var count, next := DrainPiece(limit);
        if count == 0 { break; }
        end := next;
        total' := total' + count;
        if total' > byteLimit { return total', false; }
      }
      SliceAgain(bytes, old(pos), n);
    }

    /** One physical line: read at most `limit` + 1 bytes of it and drain the rest.  `total` counts every
        byte read; beyond `byteLimit` the upload is given up. */
    method NextLine(limit: nat, total: nat, byteLimit: nat) returns (line: Bytes, overlong: bool, total': nat, given: bool)
      requires Valid() && Rest() != [] && total <= byteLimit
      modifies this
      ensures Valid()
      ensures var n := LineLength(old(Rest()));
              && (given <==> total + n <= byteLimit)
              && (given ==> Rest() == old(Rest())[n..] && total' == total + n && (overlong <==> n > limit))
              && (given && !overlong ==> line == old(Rest())[..n])
    {
      ghost var (rest, n) := (Rest(), LineLength(Rest()));
      line := ReadLine(limit + 1);
      total' := total + |line|;
      overlong := |line| > limit;
      if total' > byteLimit { return line, overlong, total', false; }
      given := true;
      if overlong {
        ReadingShortens(rest, |line|);
        SliceAgain(rest, |line|, n - |line|);
        total', given := Drain(limit, line[|line| - 1], total', byteLimit);
      }
    }
  }

  const MAX_REPORTED_ERRORS := 20

  function OneError(errors: nat): nat {
    if errors < MAX_REPORTED_ERRORS then errors + 1 else errors
  }

  /** The program's running totals: errors reported, records, field names, sample ids, format, bytes stored. */
  datatype Tally = Tally(errors: nat, count: nat, fields: set<string>, ids: set<string>, format: Option<Format>, stored: Bytes)

  ghost predicate Tallied(t: Tally, reader: Reader, kind: Kind, lines: seq<Bytes>) {
    && (t.errors == 0 <==> Clean(reader, kind, lines))
    && t.count <= NonBlank(lines) && t.count <= RecordLimit(kind) && |t.fields| <= MAX_SCHEMA_FIELDS
    && (kind == EvaluationSet ==> t.format.None?)
    && (t.errors == 0 ==>
          && t.count == NonBlank(lines) && t.fields == Fields(reader, kind, lines) && t.stored == Flatten(lines)
          && (if kind == EvaluationSet then t.ids == Ids(reader, kind, lines) else t.format == FormatOf(reader, kind, lines)))
  }

  method AddFields(fields: set<string>, keys: set<string>) returns (fields': set<string>, bad: bool)
    requires |fields| <= MAX_SCHEMA_FIELDS
    ensures bad <==> (exists k :: k in keys && |k| > MAX_FIELD_NAME_LENGTH) || |fields + keys| > MAX_SCHEMA_FIELDS
    ensures |fields'| <= MAX_SCHEMA_FIELDS && (!bad ==> fields' == fields + keys)
  {
    fields' := fields;
    bad := false;
    var todo := keys;
    while todo != {}
      invariant todo <= keys && fields' <= fields + (keys - todo) && |fields'| <= MAX_SCHEMA_FIELDS
      invariant bad ==> (exists k :: k in keys && |k| > MAX_FIELD_NAME_LENGTH) || |fields + keys| > MAX_SCHEMA_FIELDS
      invariant !bad ==> fields' == fields + (keys - todo) && forall k <- keys - todo :: |k| <= MAX_FIELD_NAME_LENGTH
      decreases todo
    {
      var k :| k in todo;
      if |k| > MAX_FIELD_NAME_LENGTH {
        bad := true;
      } else if k !in fields' && |fields'| >= MAX_SCHEMA_FIELDS {
        SubsetSize(fields' + {k}, fields + keys);
        bad := true;
      } else {
        fields' := fields' + {k};
      }
      todo := todo - {k};
    }
  }

  /** The checks on the parsed record of one line. */
  method ExamineRecord(reader: Reader, kind: Kind, t: Tally, item: Json, number: nat) returns (t': Tally)
    requires |t.fields| <= MAX_SCHEMA_FIELDS
    ensures t'.count == t.count && t'.stored == t.stored && |t'.fields| <= MAX_SCHEMA_FIELDS
    ensures kind == EvaluationSet ==> t'.format == t.format
    ensures var keys := if item.Obj? then item.fields.Keys else {};
            var r := ReadItem(reader, kind, item, number);
            && (t'.errors == 0 <==>
                 && t.errors == 0 && r.Record? && (forall k <- keys :: |k| <= MAX_FIELD_NAME_LENGTH)
                 && |t.fields + keys| <= MAX_SCHEMA_FIELDS
                 && if kind == EvaluationSet then r.id !in t.ids else t.format.None? || t.format == r.format)
            && (t'.errors == 0 ==>
                 && t'.fields == t.fields + keys
                 && (kind == EvaluationSet ==> t'.ids == t.ids + {r.id})
                 && (kind != EvaluationSet ==> t'.format == if t.format.Some? then t.format else r.format))
  {
    t' := t;
    if item.Obj? {
      var fields, bad := AddFields(t.fields, item.fields.Keys);
      t' := t'.(fields := fields, errors := if bad then OneError(t'.errors) else t'.errors);
    }
    if kind == EvaluationSet && item.Obj? {
      var sample := reader.sample(item, number);
      if sample.None? {
        t' := t'.(errors := OneError(t'.errors));
      } else {
        if sample.value in t'.ids { t' := t'.(errors := OneError(t'.errors)); }
        t' := t'.(ids := t'.ids + {sample.value});
      }
    } else {
      var format := TrainingFormat(item, kind);
      if format.None? {
        t' := t'.(errors := OneError(t'.errors));
      } else if t'.format.None? {
        t' := t'.(format := format);
      } else if t'.format != format {
        t' := t'.(errors := OneError(t'.errors));
      }
    }
  }

  /** One physical line of the upload; `given` is false when there are too many records. */
  method ExamineLine(reader: Reader, kind: Kind, t: Tally, line: Bytes, overlong: bool, number: nat, ghost whole: Bytes, ghost lines: seq<Bytes>)
    returns (t': Tally, given: bool)
    requires Tallied(t, reader, kind, lines) && number == |lines| + 1 && (overlong <==> |whole| > LineLimit(kind)) && (!overlong ==> line == whole)
    ensures given ==> Tallied(t', reader, kind, lines + [whole])
    ensures !given ==> NonBlank(lines + [whole]) > RecordLimit(kind)
  {
    CleanExtends(reader, kind, lines, whole);
    OneMore(reader, kind, lines, whole);
    if Clean(reader, kind, lines) { AgreementIsCheap(reader, kind, lines, whole); }
    t' := t;
    given := true;
    if overlong {
      t' := t'.(errors := OneError(t'.errors));
      return;
    }
    t' := t'.(stored := t'.stored + line);
    if Blank(line) {
      if kind != EvaluationSet { t' := t'.(errors := OneError(t'.errors)); }
      return;
    }
    var decoded := reader.decode(line);
    if decoded.None? {
      t' := t'.(errors := OneError(t'.errors));
      return;
    }
    if t'.count + 1 > RecordLimit(kind) { return t', false; }
    t' := t'.(count := t'.count + 1);
    t' := ExamineRecord(reader, kind, t', decoded.value, number);
  }

  /** `rest` is what follows the first `n` lines of `text`. */
  ghost predicate Behind(text: Bytes, n: nat, rest: Bytes) {
    n <= |Lines(text)| && Lines(rest) == Lines(text)[n..]
  }

  lemma TakeLine(text: Bytes, n: nat, rest: Bytes)
    requires rest != [] && Behind(text, n, rest)
    ensures n < |Lines(text)| && Lines(text)[n] == rest[..LineLength(rest)]
    ensures Lines(text)[..n + 1] == Lines(text)[..n] + [rest[..LineLength(rest)]]
    ensures Behind(text, n + 1, rest[LineLength(rest)..])
  {
    assert Lines(text)[n..][0] == Lines(text)[n];
    assert Lines(text)[n..][1..] == Lines(text)[n + 1..];
  }

  lemma TalliedNothing(reader: Reader, kind: Kind)
    ensures Tallied(Tally(0, 0, {}, {}, None, []), reader, kind, [])
  {
  }

  /** Read all physical lines, each exactly once; `given` is false when the upload was given up. */
  method TallyLines(reader: Reader, kind: Kind, text: Bytes) returns (t: Tally, total: nat, given: bool)
    ensures given ==> Tallied(t, reader, kind, Lines(text)) && total == |text| <= ByteLimit(kind)
    ensures !given ==> |text| > ByteLimit(kind) || NonBlank(Lines(text)) > RecordLimit(kind)
  {
    var source := new Source(text);
    var number := 0;
    total, t, given := 0, Tally(0, 0, {}, {}, None, []), true;
    TalliedNothing(reader, kind);
    while source.pos < |source.bytes|
      invariant source.Valid() && fresh(source) && source.bytes == text && total + |source.Rest()| == |text|
      invariant Behind(text, number, source.Rest())
      invariant given && total <= ByteLimit(kind) && Tallied(t, reader, kind, Lines(text)[..number])
      decreases |source.Rest()|
    {
      ghost var rest := source.Rest();
      ghost var lines := Lines(text)[..number];
      TakeLine(text, number, rest);
      number := number + 1;
      var line, overlong;
      line, overlong, total, given := source.NextLine(LineLimit(kind), total, ByteLimit(kind));
      if !given { return; }
      t, given := ExamineLine(reader, kind, t, line, overlong, number, rest[..LineLength(rest)], lines);
      if !given {
        CountedPrefix(text, number);
        return;
      }
    }
    AllLines(text, number, source.Rest());
  }

  lemma CountedPrefix(text: Bytes, n: nat)
    requires n <= |Lines(text)|
    ensures NonBlank(Lines(text)[..n]) <= NonBlank(Lines(text))
  {
    NonBlankPrefix(Lines(text)[..n], Lines(text)[n..]);
    assert Lines(text)[..n] + Lines(text)[n..] == Lines(text);
  }

  lemma AllLines(text: Bytes, n: nat, rest: Bytes)
    requires Behind(text, n, rest) && rest == []
    ensures Lines(text)[..n] == Lines(text)
  {
    assert |Lines(text)[n..]| == 0;
  }

  /** The upload: the row for the stored file, or nothing; `stored` is what the file holds. */
  method ValidateAndStoreJsonl(reader: Reader, kind: Kind, text: Bytes) returns (result: Option<Dataset>, stored: Bytes)
    ensures result.Some? <==> Acceptable(reader, kind, text)
    ensures result.Some? ==> result.value == DatasetOf(reader, kind, text) && stored == text
  {
    var t, total, given := TallyLines(reader, kind, text);
    if !given || t.errors > 0 || t.count == 0 { return None, []; }
    LinesOfText(text);
    result := Some(Dataset(t.count, total, t.stored, t.fields, t.format));
    stored := t.stored;
  }

  // ---- The check at scheduling time ----

  predicate LineTrains(reader: Reader, kind: Kind, line: Bytes, number: nat) {
    |line| <= MAX_LINE_BYTES && !Blank(line) && Read(reader, kind, line, number).Record?
  }

  predicate Trains(reader: Reader, kind: Kind, lines: seq<Bytes>) {
    (forall i :: 0 <= i < |lines| ==> LineTrains(reader, kind, lines[i], i + 1)) && LinesAgree(reader, kind, lines)
  }

  predicate TrainingVerified(reader: Reader, kind: Kind, text: Bytes, d: Dataset) {
    && 1 <= |text| <= MAX_DATASET_BYTES && Trains(reader, kind, Lines(text)) && NonBlank(Lines(text)) >= 1
    && d.sizeBytes == |text| && d.recordCount == NonBlank(Lines(text)) && d.sha256 == text
    && d.format == FormatOf(reader, kind, Lines(text))
  }

  lemma TrainsExtends(reader: Reader, kind: Kind, lines: seq<Bytes>, line: Bytes)
    requires kind != EvaluationSet
    ensures Trains(reader, kind, lines + [line]) <==>
      && Trains(reader, kind, lines) && LineTrains(reader, kind, line, |lines| + 1)
      && (FormatOf(reader, kind, lines).None? || FormatOf(reader, kind, lines) == Read(reader, kind, line, |lines| + 1).format)
  {
    var next := lines + [line];
    AgreeExtends(reader, kind, lines, line);
    OneMore(reader, kind, lines, line);
    if LinesAgree(reader, kind, lines) { AgreementIsCheap(reader, kind, lines, line); }
    assert next[|lines|] == line;
    assert forall i :: 0 <= i < |lines| ==> next[i] == lines[i];
    if Trains(reader, kind, next) {
      assert LineTrains(reader, kind, next[|lines|], |lines| + 1);
      forall i | 0 <= i < |lines| ensures LineTrains(reader, kind, lines[i], i + 1) {
        assert LineTrains(reader, kind, next[i], i + 1);
      }
    }
  }

  lemma {:induction false} TrainsPrefix(reader: Reader, kind: Kind, lines: seq<Bytes>, rest: seq<Bytes>)
    requires kind != EvaluationSet && Trains(reader, kind, lines + rest)
    ensures Trains(reader, kind, lines)
  {
    if rest == [] {
      assert lines + rest == lines;
    } else {
      var (init, last) := (rest[..|rest| - 1], rest[|rest| - 1]);
      assert lines + rest == (lines + init) + [last];
      TrainsExtends(reader, kind, lines + init, last);
      TrainsPrefix(reader, kind, lines, init);
    }
  }

  /** One line of the re-check: the format so far, or failure. */
  method CheckTrainingLine(reader: Reader, kind: Kind, line: Bytes, number: nat, format: Option<Format>)
    returns (ok: bool, format': Option<Format>)
    requires kind != EvaluationSet
    ensures ok <==>
      LineTrains(reader, kind, line, number) && (format.None? || format == Read(reader, kind, line, number).format)
    ensures ok ==> format' == Read(reader, kind, line, number).format
  {
    format' := format;
    if |line| > MAX_LINE_BYTES || Blank(line) { return false, format; }
    var item := reader.decode(line);
    if item.None? { return false, format; }
    var current := TrainingFormat(item.value, kind);
    if current.None? { return false, format; }
    if format.None? {
      format' := current;
    } else if format != current {
      return false, format;
    }
    ok := true;
  }

  /** What a bounded read shows of a physical line: whether it is too long, and otherwise all of it. */
  lemma CutLine(rest: Bytes, limit: nat)
    requires rest != []
    ensures var n := LineLength(rest);
            var k := if n <= limit + 1 then n else limit + 1;
            (k > limit <==> n > limit) && (n <= limit ==> k == n)
  {
  }

  /** The running totals of the re-check. */
  datatype Check = Check(count: nat, digest: Bytes, format: Option<Format>)

  ghost predicate Checked(c: Check, reader: Reader, kind: Kind, lines: seq<Bytes>) {
    && Trains(reader, kind, lines) && c.format == FormatOf(reader, kind, lines)
    && c.digest == Flatten(lines) && c.count == NonBlank(lines)
  }

  method CheckNext(reader: Reader, kind: Kind, c: Check, line: Bytes, number: nat, ghost whole: Bytes, ghost lines: seq<Bytes>)
    returns (c': Check, ok: bool)
    requires kind != EvaluationSet && Checked(c, reader, kind, lines) && number == |lines| + 1
    requires (|line| > MAX_LINE_BYTES <==> |whole| > MAX_LINE_BYTES) && (|whole| <= MAX_LINE_BYTES ==> line == whole)
    ensures ok <==> Trains(reader, kind, lines + [whole])
    ensures ok ==> Checked(c', reader, kind, lines + [whole])
  {
    TrainsExtends(reader, kind, lines, whole);
    OneMore(reader, kind, lines, whole);
    if |line| > MAX_LINE_BYTES { return c, false; }
    var format;
    ok, format := CheckTrainingLine(reader, kind, line, number, c.format);
    c' := Check(c.count + 1, c.digest + line, format);
  }

  method CheckLines(reader: Reader, kind: Kind, text: Bytes) returns (c: Check, ok: bool)
    requires kind != EvaluationSet
    ensures ok <==> Trains(reader, kind, Lines(text))
    ensures ok ==> Checked(c, reader, kind, Lines(text))
  {
    var source := new Source(text);
    var number := 0;
    c, ok := Check(0, [], None), true;
    while source.pos < |source.bytes|
      invariant source.Valid() && fresh(source) && source.bytes == text
      invariant Behind(text, number, source.Rest())
      invariant ok && Checked(c, reader, kind, Lines(text)[..number])
      decreases |source.Rest()|
    {
      ghost var rest := source.Rest();
      ghost var lines := Lines(text)[..number];
      TakeLine(text, number, rest);
      CutLine(rest, MAX_LINE_BYTES);
      number := number + 1;
      var line := source.ReadLine(MAX_LINE_BYTES + 1);
      c, ok := CheckNext(reader, kind, c, line, number, rest[..LineLength(rest)], lines);
      if !ok {
        UntrainedPrefix(reader, kind, Lines(text), number);
        return;
      }
      ShortLine(reader, kind, lines, rest[..LineLength(rest)]);
    }
    AllLines(text, number, source.Rest());
  }

  lemma UntrainedPrefix(reader: Reader, kind: Kind, lines: seq<Bytes>, n: nat)
    requires kind != EvaluationSet && n <= |lines| && !Trains(reader, kind, lines[..n])
    ensures !Trains(reader, kind, lines)
  {
    assert lines[..n] + lines[n..] == lines;
    if Trains(reader, kind, lines) {
      TrainsPrefix(reader, kind, lines[..n], lines[n..]);
    }
  }

  lemma ShortLine(reader: Reader, kind: Kind, lines: seq<Bytes>, line: Bytes)
    requires Trains(reader, kind, lines + [line])
    ensures |line| <= MAX_LINE_BYTES
  {
    assert LineTrains(reader, kind, (lines + [line])[|lines|], |lines| + 1);
  }

  method VerifyTrainingDataset(reader: Reader, kind: Kind, text: Bytes, d: Dataset) returns (ok: bool)
    requires kind != EvaluationSet
    ensures ok <==> TrainingVerified(reader, kind, text, d)
  {
    if !(1 <= |text| <= MAX_DATASET_BYTES) { return false; }
    var c, sound := CheckLines(reader, kind, text);
    if !sound { return false; }
    LinesOfText(text);
    ok := c.count != 0 && d.sizeBytes == |text| && d.recordCount == c.count && d.sha256 == c.digest && d.format == c.format;
  }

  datatype Fingerprint = Fingerprint(sha256: Bytes, recordCount: nat, sizeBytes: nat)

  predicate Short(lines: seq<Bytes>) {
    forall i :: 0 <= i < |lines| ==> |lines[i]| <= MAX_EVALUATION_LINE_BYTES
  }

  predicate Fingerprintable(text: Bytes) {
    && 1 <= |text| <= MAX_EVALUATION_DATASET_BYTES && Short(Lines(text))
    && 1 <= NonBlank(Lines(text)) <= MAX_EVALUATION_RECORDS
  }

  ghost predicate Printed(f: Fingerprint, lines: seq<Bytes>) {
    f == Fingerprint(Flatten(lines), NonBlank(lines), f.sizeBytes) && Short(lines) && NonBlank(lines) <= MAX_EVALUATION_RECORDS
  }

  method FingerprintNext(f: Fingerprint, line: Bytes, ghost whole: Bytes, ghost lines: seq<Bytes>)
    returns (f': Fingerprint, ok: bool)
    requires Printed(f, lines) && (|line| > MAX_EVALUATION_LINE_BYTES <==> |whole| > MAX_EVALUATION_LINE_BYTES)
    requires |whole| <= MAX_EVALUATION_LINE_BYTES ==> line == whole
    ensures ok <==> Short(lines + [whole]) && NonBlank(lines + [whole]) <= MAX_EVALUATION_RECORDS
    ensures ok ==> Printed(f', lines + [whole]) && f'.sizeBytes == f.sizeBytes && |whole| <= MAX_EVALUATION_LINE_BYTES
  {
    OneMoreLine(lines, whole);
    assert (lines + [whole])[|lines|] == whole;
    f' := f;
    if |line| > MAX_EVALUATION_LINE_BYTES { return f, false; }
    f' := f'.(sha256 := f'.sha256 + line);
    if !Blank(line) {
      f' := f'.(recordCount := f'.recordCount + 1);
      if f'.recordCount > MAX_EVALUATION_RECORDS { return f', false; }
    }
    ok := true;
  }

  method FingerprintLines(text: Bytes) returns (f: Fingerprint, ok: bool)
    ensures ok <==> Short(Lines(text)) && NonBlank(Lines(text)) <= MAX_EVALUATION_RECORDS
    ensures ok ==> f == Fingerprint(text, NonBlank(Lines(text)), |text|)
  {
    var source := new Source(text);
    var number := 0;
    f, ok := Fingerprint([], 0, |text|), true;
    while source.pos < |source.bytes|
      invariant source.Valid() && fresh(source) && source.bytes == text
      invariant Behind(text, number, source.Rest())
      invariant ok && f.sizeBytes == |text| && Printed(f, Lines(text)[..number])
      decreases |source.Rest()|
    {
      ghost var rest := source.Rest();
      TakeLine(text, number, rest);
      CutLine(rest, MAX_EVALUATION_LINE_BYTES);
      var line := source.ReadLine(MAX_EVALUATION_LINE_BYTES + 1);
      f, ok := FingerprintNext(f, line, rest[..LineLength(rest)], Lines(text)[..number]);
      number := number + 1;
      if !ok {
        UnprintablePrefix(text, number);
        return;
      }
    }
    AllLines(text, number, source.Rest());
    LinesOfText(text);
  }

  lemma UnprintablePrefix(text: Bytes, n: nat)
    requires n <= |Lines(text)|
    requires !(Short(Lines(text)[..n]) && NonBlank(Lines(text)[..n]) <= MAX_EVALUATION_RECORDS)
    ensures !(Short(Lines(text)) && NonBlank(Lines(text)) <= MAX_EVALUATION_RECORDS)
  {
    CountedPrefix(text, n);
    if !Short(Lines(text)[..n]) {
      var i :| 0 <= i < n && |Lines(text)[..n][i]| > MAX_EVALUATION_LINE_BYTES;
      assert Lines(text)[..n][i] == Lines(text)[i];
    }
  }

  lemma OneMoreLine(lines: seq<Bytes>, line: Bytes)
    ensures NonBlank(lines + [line]) == NonBlank(lines) + if Blank(line) then 0 else 1
    ensures Flatten(lines + [line]) == Flatten(lines) + line
  {
    assert (lines + [line])[..|lines|] == lines;
  }

  method FingerprintJsonl(text: Bytes) returns (f: Option<Fingerprint>)
    ensures f.Some? <==> Fingerprintable(text)
    ensures f.Some? ==> f.value == Fingerprint(text, NonBlank(Lines(text)), |text|)
  {
    if !(1 <= |text| <= MAX_EVALUATION_DATASET_BYTES) { return None; }
    var found, ok := FingerprintLines(text);
    f := if ok && found.recordCount != 0 then Some(found) else None;
  }

  /** The stored evaluation set against its row. */
  predicate CustomSetMatches(f: Option<Fingerprint>, d: Dataset) {
    f.Some? && d.sha256 == f.value.sha256 && d.recordCount == f.value.recordCount && d.sizeBytes == f.value.sizeBytes
  }

  // ---- Upload and re-check agree ----

  /** A training set that was accepted passes the check at scheduling time as long as the file is the one
      that was stored, and only then. */
  lemma AcceptedTrainingSetsVerify(reader: Reader, kind: Kind, text: Bytes, found: Bytes)
    requires kind != EvaluationSet && Acceptable(reader, kind, text)
    ensures TrainingVerified(reader, kind, found, DatasetOf(reader, kind, text)) <==> found == text
  {
    LinesOfText(text);
    var lines := Lines(text);
    assert text != [] by { assert NonBlank([]) == 0; }
    forall i | 0 <= i < |lines| ensures LineTrains(reader, kind, lines[i], i + 1) {
      assert LineFits(reader, kind, lines[i], i + 1);
    }
  }

  /** An evaluation set that was accepted has exactly its row's fingerprint when it is scheduled, and no
      other file has. */
  lemma AcceptedEvaluationSetsMatch(reader: Reader, text: Bytes, found: Bytes)
    requires Acceptable(reader, EvaluationSet, text)
    ensures var f := if Fingerprintable(found) then Some(Fingerprint(found, NonBlank(Lines(found)), |found|)) else None;
            CustomSetMatches(f, DatasetOf(reader, EvaluationSet, text)) <==> found == text
  {
    LinesOfText(text);
    var lines := Lines(text);
    assert text != [] by { assert NonBlank([]) == 0; }
    forall i | 0 <= i < |lines| ensures |lines[i]| <= MAX_EVALUATION_LINE_BYTES {
      assert LineFits(reader, EvaluationSet, lines[i], i + 1);
    }
  }

  /** Nothing is lost or counted twice: the stored bytes, their number, their digest and the record count
      of an accepted upload are those of the input, whatever the line lengths. */
  lemma AcceptedUploadsConserve(reader: Reader, kind: Kind, text: Bytes)
    requires Acceptable(reader, kind, text)
    ensures var d := DatasetOf(reader, kind, text);
            && d.sizeBytes == |text| && d.sha256 == text == Flatten(Lines(text))
            && d.recordCount == NonBlank(Lines(text))
            && (kind != EvaluationSet ==> d.recordCount == |Lines(text)| && d.format.Some?)
  {
    LinesOfText(text);
    if kind != EvaluationSet {
      AllCounted(reader, kind, Lines(text));
    }
  }

  lemma {:induction false} AllCounted(reader: Reader, kind: Kind, lines: seq<Bytes>)
    requires kind != EvaluationSet && LinesFit(reader, kind, lines)
    ensures NonBlank(lines) == |lines| && (lines != [] ==> FormatOf(reader, kind, lines).Some?)
  {
    if lines != [] {
      var (init, last) := (lines[..|lines| - 1], lines[|lines| - 1]);
      assert lines == init + [last];
      FitExtends(reader, kind, init, last);
      AllCounted(reader, kind, init);
      OneMore(reader, kind, init, last);
      assert LineFits(reader, kind, last, |init| + 1);
    }
  }

  // ---- What is accepted, in full ----

  /** White space in text, and in bytes. */
  lemma BlanksAreThese(c: char, b: Byte)
    ensures IsBlank(c) <==>
      || c as int in {9, 10, 11, 12, 13, 28, 29, 30, 31, 32, 133, 160, 5760, 8232, 8233, 8239, 8287, 12288}
      || 8192 <= c as int <= 8202
    ensures BlankByte(b) <==> b in {9, 10, 11, 12, 13, 32}
  {
  }

  /** The lines of a text are cut right after each line feed and nowhere else. */
  lemma {:induction false} LinesEndAtLineFeeds(text: Bytes, i: nat)
    requires i < |Lines(text)|
    ensures var line := Lines(text)[i];
            && line != [] && (forall j :: 0 <= j < |line| - 1 ==> line[j] != 10)
            && (i + 1 < |Lines(text)| ==> line[|line| - 1] == 10)
    decreases |text|
  {
    var n := LineLength(text);
    if i > 0 {
      LinesEndAtLineFeeds(text[n..], i - 1);
    } else if n < |text| {
      assert text[..n][n - 1] == 10;
    }
  }

  /** The positions of the lines with something on them. */
  function Written(lines: seq<Bytes>): set<int> {
    set i | 0 <= i < |lines| && exists b <- lines[i] :: b !in {9, 10, 11, 12, 13, 32}
  }

  /** How many records there are: one for each line with something on it. */
  lemma {:induction false} RecordsAreCounted(lines: seq<Bytes>)
    ensures NonBlank(lines) == |Written(lines)|
  {
    if lines != [] {
      var (n, init) := (|lines| - 1, lines[..|lines| - 1]);
      RecordsAreCounted(init);
      assert forall i :: 0 <= i < n ==> init[i] == lines[i];
      BlankLinesAreUnwritten(lines[n]);
      assert Written(lines) == if Blank(lines[n]) then Written(init) else Written(init) + {n};
    }
  }

  lemma BlankLinesAreUnwritten(line: Bytes)
    ensures Blank(line) <==> !exists b <- line :: b !in {9, 10, 11, 12, 13, 32}
  {
    forall i | 0 <= i < |line| ensures line[i] in line {}
  }

  /** A value that is text with something besides white space in it. */
  predicate Filled(v: Json) {
    v.Text? && exists i :: 0 <= i < |v.s| && !IsBlank(v.s[i])
  }

  predicate FilledAt(fields: map<string, Json>, name: string) {
    name in fields && Filled(fields[name])
  }

  /** A list of at least one turn, each naming who speaks and what is said. */
  predicate Turns(v: Json, role: string, content: string) {
    && v.Array? && |v.items| >= 1
    && forall turn <- v.items :: turn.Obj? && FilledAt(turn.fields, role) && FilledAt(turn.fields, content)
  }

  predicate ListAt(fields: map<string, Json>, name: string) {
    name in fields && fields[name].Array?
  }

  predicate TextAt(fields: map<string, Json>, name: string) {
    name in fields && fields[name].Text?
  }

  /** Which records have which format, field by field; evaluation rows have none of them. */
  lemma FormatsAreThese(item: Json, kind: Kind)
    ensures !item.Obj? || kind == EvaluationSet ==> TrainingFormat(item, kind) == None
    ensures item.Obj? && kind == Cpt ==>
      && (TrainingFormat(item, kind) == Some(CptText) <==> FilledAt(item.fields, "text") && !FilledAt(item.fields, "content"))
      && (TrainingFormat(item, kind) == Some(CptContent) <==> FilledAt(item.fields, "content") && !FilledAt(item.fields, "text"))
      && TrainingFormat(item, kind) in {None, Some(CptText), Some(CptContent)}
    ensures item.Obj? && kind == Sft ==>
      var f := item.fields;
      var alpaca := TextAt(f, "instruction") && TextAt(f, "output");
      && (TrainingFormat(item, kind) == Some(SftMessages) <==>
            ListAt(f, "messages") && Turns(f["messages"], "role", "content") && !ListAt(f, "conversations") && !alpaca)
      && (TrainingFormat(item, kind) == Some(SftConversations) <==>
            ListAt(f, "conversations") && Turns(f["conversations"], "from", "value") && !ListAt(f, "messages") && !alpaca)
      && (TrainingFormat(item, kind) == Some(SftAlpaca) <==>
            && FilledAt(f, "instruction") && FilledAt(f, "output") && ("input" in f ==> f["input"].Text?)
            && !ListAt(f, "messages") && !ListAt(f, "conversations"))
      && TrainingFormat(item, kind) in {None, Some(SftMessages), Some(SftConversations), Some(SftAlpaca)}
  {
    if item.Obj? && kind == Sft {
      TurnsAreListed(item.fields, "messages", "role", "content");
      TurnsAreListed(item.fields, "conversations", "from", "value");
    }
  }

  lemma TurnsAreListed(fields: map<string, Json>, name: string, role: string, content: string)
    ensures HasArray(fields, name) ==> (ValidTurns(fields[name].items, role, content) <==> Turns(fields[name], role, content))
  {
    if HasArray(fields, name) {
      var items := fields[name].items;
      if Turns(fields[name], role, content) {
        forall i | 0 <= i < |items| ensures items[i].Obj? && HasText(items[i].fields, role) && HasText(items[i].fields, content) {
          assert items[i] in items;
        }
      }
    }
  }

  /** The names of the fields in all records of a list of lines. */
  lemma {:induction false} FieldsAreNames(reader: Reader, kind: Kind, lines: seq<Bytes>, name: string)
    ensures name in Fields(reader, kind, lines) <==>
      exists i :: 0 <= i < |lines| && RecordAt(reader, kind, lines, i).Record? && name in RecordAt(reader, kind, lines, i).keys
  {
    if lines != [] {
      var (n, init) := (|lines| - 1, lines[..|lines| - 1]);
      FieldsAreNames(reader, kind, init, name);
      assert forall i :: 0 <= i < n ==> RecordAt(reader, kind, init, i) == RecordAt(reader, kind, lines, i);
    }
  }

  /** What a line with something on it holds. */
  predicate TrainingLine(reader: Reader, kind: Kind, line: Bytes, f: Format) {
    && reader.decode(line).Some? && reader.decode(line).value.Obj? && TrainingFormat(reader.decode(line).value, kind) == Some(f)
    && forall name <- reader.decode(line).value.fields :: |name| <= 128
  }

  predicate AllOfFormat(reader: Reader, kind: Kind, lines: seq<Bytes>, f: Format) {
    forall i :: 0 <= i < |lines| ==> |lines[i]| <= 16_777_216 && !Blank(lines[i]) && TrainingLine(reader, kind, lines[i], f)
  }

  lemma TrainingLineFits(reader: Reader, kind: Kind, line: Bytes, number: nat)
    requires kind != EvaluationSet
    ensures LineFits(reader, kind, line, number) <==>
      |line| <= 16_777_216 && !Blank(line) && exists f :: TrainingLine(reader, kind, line, f)
    ensures forall f :: !Blank(line) && TrainingLine(reader, kind, line, f) ==>
              Read(reader, kind, line, number) == Record(reader.decode(line).value.fields.Keys, Some(f), "")
  {
    if LineFits(reader, kind, line, number) {
      var f := TrainingFormat(reader.decode(line).value, kind).value;
      assert TrainingLine(reader, kind, line, f);
    }
  }

  lemma OneFormatIsClean(reader: Reader, kind: Kind, lines: seq<Bytes>, f: Format)
    requires kind != EvaluationSet && AllOfFormat(reader, kind, lines, f)
    ensures LinesFit(reader, kind, lines) && LinesAgree(reader, kind, lines)
  {
    forall i | 0 <= i < |lines|
      ensures LineFits(reader, kind, lines[i], i + 1) && RecordAt(reader, kind, lines, i).Record?
      ensures RecordAt(reader, kind, lines, i).format == Some(f)
    {
      TrainingLineFits(reader, kind, lines[i], i + 1);
    }
  }

  lemma CleanHasOneFormat(reader: Reader, kind: Kind, lines: seq<Bytes>)
    requires kind != EvaluationSet && lines != [] && LinesFit(reader, kind, lines) && LinesAgree(reader, kind, lines)
    ensures exists f :: AllOfFormat(reader, kind, lines, f)
  {
    assert LineFits(reader, kind, lines[0], 1);
    TrainingLineFits(reader, kind, lines[0], 1);
    var f :| TrainingLine(reader, kind, lines[0], f);
    forall i | 0 <= i < |lines| ensures |lines[i]| <= 16_777_216 && !Blank(lines[i]) && TrainingLine(reader, kind, lines[i], f) {
      assert LineFits(reader, kind, lines[i], i + 1);
      TrainingLineFits(reader, kind, lines[i], i + 1);
      if i > 0 { assert Compatible(kind, RecordAt(reader, kind, lines, 0), RecordAt(reader, kind, lines, i)); }
    }
    assert AllOfFormat(reader, kind, lines, f);
  }

  /** A training set is accepted exactly when it has at most 5 GiB, 1 to 10,000,000 lines, none of them blank or of more
      than 16 MiB, every line a record of one and the same format with field names of at most 128 characters, and
      at most 256 field names in all. */
  lemma TrainingSetsAreAccepted(reader: Reader, kind: Kind, text: Bytes)
    requires kind == Cpt || kind == Sft
    ensures var lines := Lines(text);
            Acceptable(reader, kind, text) <==>
              && |text| <= 5_368_709_120 && 1 <= |lines| <= 10_000_000
              && (exists f :: AllOfFormat(reader, kind, lines, f)) && |Fields(reader, kind, lines)| <= 256
  {
    TrainingLinesAreAccepted(reader, kind, Lines(text));
  }

  lemma TrainingLinesAreAccepted(reader: Reader, kind: Kind, lines: seq<Bytes>)
    requires kind != EvaluationSet
    ensures LinesFit(reader, kind, lines) && LinesAgree(reader, kind, lines) && NonBlank(lines) >= 1
            <==> lines != [] && exists f :: AllOfFormat(reader, kind, lines, f)
    ensures LinesFit(reader, kind, lines) ==> NonBlank(lines) == |lines|
  {
    if LinesFit(reader, kind, lines) {
      AllCounted(reader, kind, lines);
      if LinesAgree(reader, kind, lines) && lines != [] { CleanHasOneFormat(reader, kind, lines); }
    }
    if f :| AllOfFormat(reader, kind, lines, f) {
      OneFormatIsClean(reader, kind, lines, f);
    }
  }

  /** What a line of an evaluation set with something on it holds: an object that is a sample. */
  predicate SampleLine(reader: Reader, line: Bytes, number: nat) {
    && reader.decode(line).Some? && reader.decode(line).value.Obj? && reader.sample(reader.decode(line).value, number).Some?
    && forall name <- reader.decode(line).value.fields :: |name| <= 128
  }

  function SampleIdAt(reader: Reader, line: Bytes, number: nat): string
    requires SampleLine(reader, line, number)
  {
    reader.sample(reader.decode(line).value, number).value
  }

  predicate SamplesDiffer(reader: Reader, lines: seq<Bytes>, i: nat, j: nat)
    requires i < |lines| && j < |lines|
  {
    SampleLine(reader, lines[i], i + 1) && SampleLine(reader, lines[j], j + 1) ==>
      SampleIdAt(reader, lines[i], i + 1) != SampleIdAt(reader, lines[j], j + 1)
  }

  predicate AllSamples(reader: Reader, lines: seq<Bytes>) {
    forall i :: 0 <= i < |lines| ==> |lines[i]| <= 1_048_576 && (Blank(lines[i]) || SampleLine(reader, lines[i], i + 1))
  }

  predicate AllSamplesDiffer(reader: Reader, lines: seq<Bytes>) {
    forall i, j :: 0 <= i < j < |lines| && !Blank(lines[i]) && !Blank(lines[j]) ==> SamplesDiffer(reader, lines, i, j)
  }

  lemma SampleLineFits(reader: Reader, line: Bytes, number: nat)
    ensures LineFits(reader, EvaluationSet, line, number) <==> |line| <= 1_048_576 && (Blank(line) || SampleLine(reader, line, number))
    ensures SampleLine(reader, line, number) ==>
              Read(reader, EvaluationSet, line, number)
              == Record(reader.decode(line).value.fields.Keys, None, SampleIdAt(reader, line, number))
  {
  }

  lemma SampleLinesAreAccepted(reader: Reader, lines: seq<Bytes>)
    ensures LinesFit(reader, EvaluationSet, lines) <==> AllSamples(reader, lines)
    ensures AllSamples(reader, lines) ==> (LinesAgree(reader, EvaluationSet, lines) <==> AllSamplesDiffer(reader, lines))
  {
    forall i | 0 <= i < |lines|
      ensures LineFits(reader, EvaluationSet, lines[i], i + 1)
              <==> |lines[i]| <= 1_048_576 && (Blank(lines[i]) || SampleLine(reader, lines[i], i + 1))
      ensures !Blank(lines[i]) && SampleLine(reader, lines[i], i + 1) ==>
                && RecordAt(reader, EvaluationSet, lines, i).Record?
                && RecordAt(reader, EvaluationSet, lines, i).id == SampleIdAt(reader, lines[i], i + 1)
    {
      SampleLineFits(reader, lines[i], i + 1);
    }
    if AllSamples(reader, lines) {
      forall i, j | 0 <= i < j < |lines|
        ensures Compatible(EvaluationSet, RecordAt(reader, EvaluationSet, lines, i), RecordAt(reader, EvaluationSet, lines, j))
                <==> (!Blank(lines[i]) && !Blank(lines[j]) ==> SamplesDiffer(reader, lines, i, j))
      {
      }
    }
  }

  /** An evaluation set is accepted exactly when it has at most 256 MiB, no line of more than 1 MiB, 1 to 200,000 samples
      with different ids and field names of at most 128 characters on its lines that are not blank, and at most 256
      field names in all. */
  lemma EvaluationSetsAreAccepted(reader: Reader, text: Bytes)
    ensures var lines := Lines(text);
            Acceptable(reader, EvaluationSet, text) <==>
              && |text| <= 268_435_456 && 1 <= NonBlank(lines) <= 200_000
              && AllSamples(reader, lines) && AllSamplesDiffer(reader, lines) && |Fields(reader, EvaluationSet, lines)| <= 256
  {
    SampleLinesAreAccepted(reader, Lines(text));
  }

  /** A line as the check at scheduling time wants it: not too long, not blank, a record of this format. */
  predicate ScheduledLine(reader: Reader, kind: Kind, line: Bytes, f: Format) {
    && |line| <= 16_777_216 && !Blank(line)
    && reader.decode(line).Some? && TrainingFormat(reader.decode(line).value, kind) == Some(f)
  }

  predicate AllScheduled(reader: Reader, kind: Kind, lines: seq<Bytes>, f: Format) {
    forall i :: 0 <= i < |lines| ==> ScheduledLine(reader, kind, lines[i], f)
  }

  lemma ScheduledLineTrains(reader: Reader, kind: Kind, line: Bytes, number: nat)
    requires kind != EvaluationSet
    ensures LineTrains(reader, kind, line, number) <==> exists f :: ScheduledLine(reader, kind, line, f)
    ensures forall f :: ScheduledLine(reader, kind, line, f) ==>
              Read(reader, kind, line, number).Record? && Read(reader, kind, line, number).format == Some(f)
  {
    if LineTrains(reader, kind, line, number) {
      assert ScheduledLine(reader, kind, line, TrainingFormat(reader.decode(line).value, kind).value);
    }
  }

  lemma {:induction false} FormatOfAll(reader: Reader, kind: Kind, lines: seq<Bytes>, f: Format)
    requires kind != EvaluationSet && lines != [] && AllScheduled(reader, kind, lines, f)
    ensures FormatOf(reader, kind, lines) == Some(f) && NonBlank(lines) == |lines|
  {
    var (n, init) := (|lines| - 1, lines[..|lines| - 1]);
    assert ScheduledLine(reader, kind, lines[n], f);
    ScheduledLineTrains(reader, kind, lines[n], n + 1);
    if init != [] {
      assert forall i :: 0 <= i < n ==> ScheduledLine(reader, kind, init[i], f) by {
        assert forall i :: 0 <= i < n ==> init[i] == lines[i];
      }
      FormatOfAll(reader, kind, init, f);
    }
  }

  lemma TrainsInOneFormat(reader: Reader, kind: Kind, lines: seq<Bytes>)
    requires kind != EvaluationSet && lines != []
    ensures Trains(reader, kind, lines) <==> exists f :: AllScheduled(reader, kind, lines, f)
  {
    if Trains(reader, kind, lines) {
      assert LineTrains(reader, kind, lines[0], 1);
      ScheduledLineTrains(reader, kind, lines[0], 1);
      var f :| ScheduledLine(reader, kind, lines[0], f);
      forall i | 0 <= i < |lines| ensures ScheduledLine(reader, kind, lines[i], f) {
        assert LineTrains(reader, kind, lines[i], i + 1);
        ScheduledLineTrains(reader, kind, lines[i], i + 1);
        if i > 0 { assert Compatible(kind, RecordAt(reader, kind, lines, 0), RecordAt(reader, kind, lines, i)); }
      }
      assert AllScheduled(reader, kind, lines, f);
    }
    if f :| AllScheduled(reader, kind, lines, f) {
      forall i | 0 <= i < |lines|
        ensures LineTrains(reader, kind, lines[i], i + 1) && RecordAt(reader, kind, lines, i).format == Some(f)
      {
        assert ScheduledLine(reader, kind, lines[i], f);
        ScheduledLineTrains(reader, kind, lines[i], i + 1);
      }
    }
  }

  /** A training set passes the check at scheduling time exactly when it is one of 1 byte to 5 GiB, all its lines are
      records of one format, and size, number of lines, bytes and format are those of its row. */
  lemma ScheduledSetsAreVerified(reader: Reader, kind: Kind, text: Bytes, d: Dataset)
    requires kind == Cpt || kind == Sft
    ensures var lines := Lines(text);
            TrainingVerified(reader, kind, text, d) <==>
              && 1 <= |text| <= 5_368_709_120 && d.sizeBytes == |text| && d.recordCount == |lines| && d.sha256 == text
              && exists f :: AllScheduled(reader, kind, lines, f) && d.format == Some(f)
  {
    var lines := Lines(text);
    if text != [] {
      TrainsInOneFormat(reader, kind, lines);
      forall f | AllScheduled(reader, kind, lines, f) ensures FormatOf(reader, kind, lines) == Some(f) && NonBlank(lines) == |lines| {
        FormatOfAll(reader, kind, lines, f);
      }
    }
  }

  /** The row of an accepted set tells its one format, if it is a training set, and its field names. */
  lemma RowsTellTheFormat(reader: Reader, kind: Kind, text: Bytes, f: Format, name: string)
    requires Acceptable(reader, kind, text)
    ensures var (d, lines) := (DatasetOf(reader, kind, text), Lines(text));
            && (kind == EvaluationSet ==> d.format == None)
            && (kind != EvaluationSet && AllOfFormat(reader, kind, lines, f) ==> d.format == Some(f))
            && (name in d.fields <==>
                  exists i :: 0 <= i < |lines| && RecordAt(reader, kind, lines, i).Record? && name in RecordAt(reader, kind, lines, i).keys)
  {
    var lines := Lines(text);
    FieldsAreNames(reader, kind, lines, name);
    assert text != [] by { assert NonBlank([]) == 0; }
    if kind != EvaluationSet && AllOfFormat(reader, kind, lines, f) {
      forall i | 0 <= i < |lines| ensures ScheduledLine(reader, kind, lines[i], f) {
        assert TrainingLine(reader, kind, lines[i], f);
      }
      FormatOfAll(reader, kind, lines, f);
    }
  }

  /** A file has a fingerprint when it has 1 byte to 256 MiB, no line of more than 1 MiB, and 1 to 200,000 lines with
      something on them; it matches its row in digest, number and size, or not at all. */
  lemma FingerprintsAreCompared(text: Bytes, f: Fingerprint, d: Dataset)
    ensures Fingerprintable(text) <==>
      && 1 <= |text| <= 268_435_456 && (forall line <- Lines(text) :: |line| <= 1_048_576) && 1 <= NonBlank(Lines(text)) <= 200_000
    ensures CustomSetMatches(Some(f), d) <==> f == Fingerprint(d.sha256, d.recordCount, d.sizeBytes)
    ensures !CustomSetMatches(None, d)
  {
    var lines := Lines(text);
    if forall line <- lines :: |line| <= 1_048_576 {
      forall i | 0 <= i < |lines| ensures |lines[i]| <= 1_048_576 {
        assert lines[i] in lines;
      }
    }
  }

  /** Errors are reported one by one, up to twenty. */
  lemma {:induction false} ErrorsAreReported(n: nat)
    ensures Reported(n) == if n <= 20 then n else 20
  {
    if n > 0 {
      ErrorsAreReported(n - 1);
    }
  }

  function Reported(n: nat): nat {
    if n == 0 then 0 else OneError(Reported(n - 1))
  }
}
