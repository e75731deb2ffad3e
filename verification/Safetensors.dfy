/** The safetensors file check: a header of tensor descriptions is accepted exactly when the tensors
    tile the data section. */
module Safetensors {
  import opened Contract
  import Sorting

  const MAX_HEADER_BYTES := 100 * 1024 * 1024
  const MAX_PARAMETER_COUNT := 0x7fff_ffff_ffff_ffff
  const METADATA := "__metadata__"

  function DtypeBits(dtype: string): Option<nat> {
    if dtype in {"F4"} then Some(4)
    else if dtype in {"F6_E2M3", "F6_E3M2"} then Some(6)
    else if dtype in {"BOOL", "U8", "I8", "F8_E5M2", "F8_E4M3", "F8_E8M0", "F8_E4M3FNUZ", "F8_E5M2FNUZ"} then Some(8)
    else if dtype in {"I16", "U16", "F16", "BF16"} then Some(16)
    else if dtype in {"I32", "U32", "F32"} then Some(32)
    else if dtype in {"C64", "F64", "I64", "U64"} then Some(64)
    else None
  }

  /** A JSON value of the header.  A shape or a pair of offsets is there only if it is a list of integers. */
  datatype Value = NotAnObject | Object(shape: Option<seq<int>>, offsets: Option<(int, int)>, dtype: Option<string>)

  datatype Entry = Entry(key: string, value: Value)

  /** A file: its size, the header length in its first eight bytes, and the header if it is JSON. */
  datatype File = File(size: nat, headerSize: nat, header: Option<seq<Entry>>)

  datatype Range = Range(start: nat, end: nat, name: string)

  datatype Summary = Summary(tensorNames: set<string>, parameterCount: nat, dtypes: set<string>)

  // ---- What the check is for ----

  /** Neither range reaches into the other; an empty range may touch another one only at its border. */
  predicate Separate(a: Range, b: Range) {
    a.end <= b.start || b.end <= a.start
  }

  predicate Covers(r: Range, byte: int) {
    r.start <= byte < r.end
  }

  ghost predicate Covered(rs: seq<Range>, byte: int) {
    exists i :: 0 <= i < |rs| && Covers(rs[i], byte)
  }

  /** The ranges partition the data section. */
  ghost predicate Tiles(rs: seq<Range>, size: nat) {
    && (forall i :: 0 <= i < |rs| ==> rs[i].start <= rs[i].end <= size)
    && (forall i, j :: 0 <= i < j < |rs| ==> Separate(rs[i], rs[j]))
    && (forall byte :: 0 <= byte < size ==> Covered(rs, byte))
  }

  function Product(shape: seq<int>): int {
    if shape == [] then 1 else Product(shape[..|shape| - 1]) * shape[|shape| - 1]
  }

  predicate Described(v: Value, size: nat) {
    && v.Object? && v.shape.Some? && v.offsets.Some? && v.dtype.Some? && DtypeBits(v.dtype.value).Some?
    && (forall i :: 0 <= i < |v.shape.value| ==> v.shape.value[i] >= 0)
    && 0 <= v.offsets.value.0 <= v.offsets.value.1 <= size
    && Product(v.shape.value) * DtypeBits(v.dtype.value).value == 8 * (v.offsets.value.1 - v.offsets.value.0)
  }

  predicate WellFormed(e: Entry, size: nat) {
    if e.key == METADATA then e.value.Object? else e.key != "" && Described(e.value, size)
  }

  predicate AllWellFormed(entries: seq<Entry>, size: nat) {
    forall i :: 0 <= i < |entries| ==> WellFormed(entries[i], size)
  }

  /** The tensors of a well-formed header, in header order. */
  function Ranges(entries: seq<Entry>, size: nat): (rs: seq<Range>)
    requires AllWellFormed(entries, size)
    ensures forall i :: 0 <= i < |rs| ==> rs[i].start <= rs[i].end <= size
  {
    if entries == [] then []
    else
      var e := entries[|entries| - 1];
      assert WellFormed(e, size);
      var before := Ranges(entries[..|entries| - 1], size);
      if e.key == METADATA then before
      else before + [Range(e.value.offsets.value.0, e.value.offsets.value.1, e.key)]
  }

  function Parameters(entries: seq<Entry>, size: nat): (count: nat)
    requires AllWellFormed(entries, size)
  {
    if entries == [] then 0
    else
      var e := entries[|entries| - 1];
      assert WellFormed(e, size);
      Parameters(entries[..|entries| - 1], size)
      + if e.key == METADATA then 0 else (ProductIsNat(e.value.shape.value); Product(e.value.shape.value))
  }

  lemma {:induction false} ProductIsNat(shape: seq<int>)
    requires forall i :: 0 <= i < |shape| ==> shape[i] >= 0
    ensures Product(shape) >= 0
  {
    if shape != [] {
      ProductIsNat(shape[..|shape| - 1]);
    }
  }

  predicate UniqueKeys(entries: seq<Entry>) {
    forall i, j :: 0 <= i < j < |entries| ==> entries[i].key != entries[j].key
  }

  function TensorKeys(entries: seq<Entry>): set<string> {
    set i | 0 <= i < |entries| && entries[i].key != METADATA :: entries[i].key
  }

  function Dtypes(entries: seq<Entry>): set<string> {
    set i | 0 <= i < |entries| && entries[i].key != METADATA && entries[i].value.Object? && entries[i].value.dtype.Some? ::
      entries[i].value.dtype.value
  }

  predicate Readable(f: File) {
    && f.size >= 10 && 2 <= f.headerSize <= MAX_HEADER_BYTES && 8 + f.headerSize <= f.size
    && f.header.Some? && UniqueKeys(f.header.value) && TensorKeys(f.header.value) != {}
  }

  function DataSize(f: File): nat
    requires 8 + f.headerSize <= f.size
  {
    f.size - 8 - f.headerSize
  }

  ghost predicate Acceptable(f: File) {
    && Readable(f)
    && AllWellFormed(f.header.value, DataSize(f))
    && Parameters(f.header.value, DataSize(f)) <= MAX_PARAMETER_COUNT
    && Tiles(Ranges(f.header.value, DataSize(f)), DataSize(f))
  }

  // ---- The sorted sweep ----

  predicate AtMost(a: Range, b: Range) {
    a.start < b.start || (a.start == b.start && a.end <= b.end)
  }

  predicate Ordered(rs: seq<Range>) {
    Sorting.Ordered(AtMost, rs)
  }

  /** The ranges by start, then by end. */
  function Sorted(rs: seq<Range>): seq<Range> {
    Sorting.Sorted(AtMost, rs)
  }

  lemma SortedIsOrdered(rs: seq<Range>)
    ensures Ordered(Sorted(rs)) && multiset(Sorted(rs)) == multiset(rs)
  {
    Sorting.SortedIsOrdered(AtMost, rs);
  }

  /** Where the sweep stands before the range at `i`. */
  function CursorAt(rs: seq<Range>, i: nat): nat
    requires i <= |rs|
  {
    if i == 0 then 0 else rs[i - 1].end
  }

  predicate Linked(rs: seq<Range>, i: int) {
    0 <= i < |rs| && rs[i].start == CursorAt(rs, i)
  }

  predicate Chained(rs: seq<Range>, upTo: nat) {
    forall i :: 0 <= i < upTo ==> Linked(rs, i)
  }

  predicate Proper(rs: seq<Range>) {
    forall i :: 0 <= i < |rs| ==> rs[i].start <= rs[i].end
  }

  ghost predicate CoveredBelow(rs: seq<Range>, n: int, byte: int) {
    exists i :: 0 <= i < n <= |rs| && Covers(rs[i], byte)
  }

  lemma {:induction false} ChainCoversPrefix(rs: seq<Range>, n: nat, byte: int)
    requires n <= |rs| && Chained(rs, n) && Proper(rs)
    ensures CoveredBelow(rs, n, byte) <==> 0 <= byte < CursorAt(rs, n)
  {
    if n > 0 {
      ChainCoversPrefix(rs, n - 1, byte);
      assert Linked(rs, n - 1);
      if CoveredBelow(rs, n, byte) {
        var i :| 0 <= i < n && Covers(rs[i], byte);
        assert i == n - 1 || CoveredBelow(rs, n - 1, byte);
      } else {
        assert !Covers(rs[n - 1], byte);
        assert !CoveredBelow(rs, n - 1, byte);
      }
    }
  }

  lemma {:induction false} ChainEndsAtCursor(rs: seq<Range>, n: nat, i: nat)
    requires i < n <= |rs| && Chained(rs, n) && Proper(rs)
    ensures rs[i].end <= CursorAt(rs, n)
  {
    if i < n - 1 {
      ChainEndsAtCursor(rs, n - 1, i);
      assert Linked(rs, n - 1);
    }
  }

  lemma EarlierRangesEndBefore(a: Range, b: Range)
    requires a.start <= a.end && b.start <= b.end && Separate(a, b) && AtMost(a, b)
    ensures !Covers(a, b.start)
  {
  }

  /** If the next range starts beyond the cursor, the byte at the cursor is in no range. */
  lemma GapsAreUncovered(rs: seq<Range>, n: nat)
    requires Ordered(rs) && n < |rs| && Chained(rs, n) && Proper(rs) && CursorAt(rs, n) < rs[n].start
    ensures !Covered(rs, CursorAt(rs, n))
  {
    var cursor := CursorAt(rs, n);
    ChainCoversPrefix(rs, n, cursor);
    forall j | 0 <= j < |rs| ensures !Covers(rs[j], cursor) {
      if j < n {
        assert Covers(rs[j], cursor) ==> CoveredBelow(rs, n, cursor);
      } else {
        assert j > n ==> AtMost(rs[n], rs[j]);
      }
    }
  }

  /** A range that starts below the cursor starts inside an earlier one. */
  lemma NextStartsAtCursor(rs: seq<Range>, size: nat, n: nat)
    requires Ordered(rs) && Tiles(rs, size) && n < |rs| && Chained(rs, n)
    ensures Linked(rs, n)
  {
    var (r, cursor) := (rs[n], CursorAt(rs, n));
    forall j | 0 <= j < n ensures !Covers(rs[j], r.start) {
      EarlierRangesEndBefore(rs[j], r);
    }
    assert !CoveredBelow(rs, n, r.start);
    ChainCoversPrefix(rs, n, r.start);
    if cursor < r.start {
      GapsAreUncovered(rs, n);
      assert false;
    }
  }

  /** A sorted list that tiles the data section passes the sweep. */
  lemma {:induction false} TilingChains(rs: seq<Range>, size: nat, n: nat)
    requires Ordered(rs) && Tiles(rs, size) && n <= |rs|
    ensures Chained(rs, n)
  {
    if n > 0 {
      TilingChains(rs, size, n - 1);
      NextStartsAtCursor(rs, size, n - 1);
    }
  }

  /** The sweep over a sorted list accepts exactly the tilings. */
  lemma SweepDecidesTiling(rs: seq<Range>, size: nat)
    requires Ordered(rs) && forall i :: 0 <= i < |rs| ==> rs[i].start <= rs[i].end <= size
    ensures Chained(rs, |rs|) && CursorAt(rs, |rs|) == size <==> Tiles(rs, size)
  {
    if Tiles(rs, size) {
      TilingChains(rs, size, |rs|);
      var cursor := CursorAt(rs, |rs|);
      ChainCoversPrefix(rs, |rs|, cursor);
      assert cursor < size ==> Covered(rs, cursor);
      assert Covered(rs, cursor) ==> CoveredBelow(rs, |rs|, cursor);
    } else if Chained(rs, |rs|) && CursorAt(rs, |rs|) == size {
      ChainTiles(rs);
    }
  }

  lemma ChainTiles(rs: seq<Range>)
    requires Proper(rs) && Chained(rs, |rs|)
    ensures Tiles(rs, CursorAt(rs, |rs|))
  {
    var size := CursorAt(rs, |rs|);
    forall i | 0 <= i < |rs| ensures rs[i].end <= size {
      ChainEndsAtCursor(rs, |rs|, i);
    }
    forall byte | 0 <= byte < size ensures Covered(rs, byte) {
      ChainCoversPrefix(rs, |rs|, byte);
    }
    forall i, j | 0 <= i < j < |rs| ensures Separate(rs[i], rs[j]) {
      ChainEndsAtCursor(rs, j, i);
      assert Linked(rs, j);
    }
  }

  /** Tiling does not depend on the order of the ranges. */
  lemma TilingIsOrderFree(a: seq<Range>, b: seq<Range>, size: nat)
    requires multiset(a) == multiset(b) && Tiles(a, size)
    ensures Tiles(b, size)
  {
    assert |a| == |multiset(a)| == |multiset(b)| == |b|;
    forall i | 0 <= i < |b| ensures b[i].start <= b[i].end <= size {
      assert b[i] in multiset(b);
      assert b[i] in a;
    }
    forall byte | 0 <= byte < size ensures Covered(b, byte) {
      assert Covered(a, byte);
      var i :| 0 <= i < |a| && Covers(a[i], byte);
      assert a[i] in multiset(a);
      assert a[i] in b;
    }
    forall i, j | 0 <= i < j < |b| ensures Separate(b[i], b[j]) {
      if b[i] == b[j] {
        TwiceInBoth(a, b, i, j);
      } else {
        assert b[i] in multiset(b) && b[j] in multiset(b);
        assert b[i] in a && b[j] in a;
      }
    }
  }

  lemma CountTwice<T>(s: seq<T>, i: nat, j: nat)
    requires i < j < |s| && s[i] == s[j]
    ensures multiset(s)[s[i]] >= 2
  {
    assert s == s[..i] + [s[i]] + s[i + 1..j] + [s[j]] + s[j + 1..];
  }

  lemma TwoPlaces<T>(s: seq<T>, x: T) returns (i: nat, j: nat)
    requires multiset(s)[x] >= 2
    ensures i < j < |s| && s[i] == s[j] == x
  {
    assert x in s;
    i :| 0 <= i < |s| && s[i] == x;
    assert s == s[..i] + [x] + s[i + 1..];
    if x in s[i + 1..] {
      var k :| 0 <= k < |s[i + 1..]| && s[i + 1..][k] == x;
      j := i + 1 + k;
    } else {
      assert x in s[..i];
      j := i;
      i :| 0 <= i < |s[..j]| && s[..j][i] == x;
    }
  }

  lemma TwiceInBoth(a: seq<Range>, b: seq<Range>, i: nat, j: nat)
    requires multiset(a) == multiset(b) && i < j < |b| && b[i] == b[j]
    requires forall k, l :: 0 <= k < l < |a| ==> Separate(a[k], a[l])
    ensures Separate(b[i], b[j])
  {
    CountTwice(b, i, j);
    var k, l := TwoPlaces(a, b[i]);
  }

  lemma SortedSweepDecidesTiling(rs: seq<Range>, size: nat)
    requires forall i :: 0 <= i < |rs| ==> rs[i].start <= rs[i].end <= size
    ensures Tiles(rs, size) <==> Chained(Sorted(rs), |Sorted(rs)|) && CursorAt(Sorted(rs), |Sorted(rs)|) == size
  {
    var sorted := Sorted(rs);
    SortedIsOrdered(rs);
    forall i | 0 <= i < |sorted| ensures sorted[i] in rs {
      assert sorted[i] in multiset(sorted);
    }
    SweepDecidesTiling(sorted, size);
    if Tiles(rs, size) {
      TilingIsOrderFree(rs, sorted, size);
    } else if Tiles(sorted, size) {
      TilingIsOrderFree(sorted, rs, size);
    }
  }

  // ---- Conservation ----

  function Bytes(rs: seq<Range>): int {
    if rs == [] then 0 else Bytes(rs[..|rs| - 1]) + rs[|rs| - 1].end - rs[|rs| - 1].start
  }

  lemma {:induction false} ChainTelescopes(rs: seq<Range>, n: nat)
    requires n <= |rs| && Chained(rs, n)
    ensures Bytes(rs[..n]) == CursorAt(rs, n)
  {
    if n > 0 {
      ChainTelescopes(rs, n - 1);
      assert rs[..n][..n - 1] == rs[..n - 1];
      assert Linked(rs, n - 1);
    } else {
      assert rs[..n] == [];
    }
  }

  lemma {:induction false} InsertAddsBytes(r: Range, rs: seq<Range>)
    ensures Bytes(Sorting.Insert(AtMost, r, rs)) == Bytes(rs) + r.end - r.start
  {
    if rs == [] {
      assert Bytes([r]) == Bytes([]) + r.end - r.start;
    } else if AtMost(r, rs[0]) {
      BytesOfConcat([r], rs);
      assert [r][..0] == [];
    } else {
      InsertAddsBytes(r, rs[1..]);
      BytesOfConcat([rs[0]], Sorting.Insert(AtMost, r, rs[1..]));
      BytesOfConcat([rs[0]], rs[1..]);
      assert rs == [rs[0]] + rs[1..];
    }
  }

  lemma {:induction false} BytesOfConcat(a: seq<Range>, b: seq<Range>)
    ensures Bytes(a + b) == Bytes(a) + Bytes(b)
  {
    if b == [] {
      assert a + b == a;
    } else {
      BytesOfConcat(a, b[..|b| - 1]);
      assert (a + b)[..|a + b| - 1] == a + b[..|b| - 1];
    }
  }

  lemma {:induction false} SortingKeepsBytes(rs: seq<Range>)
    ensures Bytes(Sorted(rs)) == Bytes(rs)
  {
    if rs != [] {
      SortingKeepsBytes(rs[..|rs| - 1]);
      InsertAddsBytes(rs[|rs| - 1], Sorted(rs[..|rs| - 1]));
    }
  }

  /** The bits of all tensors, by shape and element type. */
  function StorageBits(entries: seq<Entry>, size: nat): int
    requires AllWellFormed(entries, size)
  {
    if entries == [] then 0
    else
      var e := entries[|entries| - 1];
      assert WellFormed(e, size);
      StorageBits(entries[..|entries| - 1], size)
      + if e.key == METADATA then 0 else Product(e.value.shape.value) * DtypeBits(e.value.dtype.value).value
  }

  lemma TensorBits(v: Value, size: nat)
    requires Described(v, size)
    ensures Product(v.shape.value) * DtypeBits(v.dtype.value).value == 8 * (v.offsets.value.1 - v.offsets.value.0)
  {
  }

  lemma BytesOfOneMore(rs: seq<Range>, r: Range)
    ensures Bytes(rs + [r]) == Bytes(rs) + r.end - r.start
  {
    assert (rs + [r])[..|rs|] == rs;
  }

  lemma {:induction false} BitsAreBytes(entries: seq<Entry>, size: nat)
    requires AllWellFormed(entries, size)
    ensures StorageBits(entries, size) == 8 * Bytes(Ranges(entries, size))
  {
    if entries != [] {
      var (init, e) := (entries[..|entries| - 1], entries[|entries| - 1]);
      BitsAreBytes(init, size);
      assert WellFormed(e, size);
      if e.key != METADATA {
        TensorBits(e.value, size);
        BytesOfOneMore(Ranges(init, size), Range(e.value.offsets.value.0, e.value.offsets.value.1, e.key));
      }
    }
  }

  /** In an accepted file every data byte belongs to exactly one tensor, and the tensors' shapes and
      element types account for every bit of the data section. */
  lemma AcceptedFilesConserveData(f: File)
    requires Acceptable(f)
    ensures var rs := Ranges(f.header.value, DataSize(f));
            && (forall byte :: 0 <= byte < DataSize(f) ==> Covered(rs, byte))
            && (forall byte, i, j :: 0 <= i < j < |rs| ==> !(Covers(rs[i], byte) && Covers(rs[j], byte)))
    ensures StorageBits(f.header.value, DataSize(f)) == 8 * DataSize(f)
  {
    var size := DataSize(f);
    var rs := Ranges(f.header.value, size);
    forall byte, i, j | 0 <= i < j < |rs| ensures !(Covers(rs[i], byte) && Covers(rs[j], byte)) {
      assert Separate(rs[i], rs[j]);
    }
    SortedIsOrdered(rs);
    TilingIsOrderFree(rs, Sorted(rs), size);
    SweepDecidesTiling(Sorted(rs), size);
    ChainTelescopes(Sorted(rs), |Sorted(rs)|);
    assert Sorted(rs)[..|Sorted(rs)|] == Sorted(rs);
    SortingKeepsBytes(rs);
    BitsAreBytes(f.header.value, size);
  }

  /** How many bytes elements of a type take, packed types of four and six bits included; no other type exists. */
  predicate BytesFit(dtype: string, elements: int, bytes: int) {
    || (dtype in {"BOOL", "U8", "I8", "F8_E5M2", "F8_E4M3", "F8_E8M0", "F8_E4M3FNUZ", "F8_E5M2FNUZ"} && bytes == elements)
    || (dtype in {"I16", "U16", "F16", "BF16"} && bytes == 2 * elements)
    || (dtype in {"I32", "U32", "F32"} && bytes == 4 * elements)
    || (dtype in {"C64", "F64", "I64", "U64"} && bytes == 8 * elements)
    || (dtype == "F4" && 2 * bytes == elements)
    || (dtype in {"F6_E2M3", "F6_E3M2"} && 4 * bytes == 3 * elements)
  }

  /** The entry of a tensor is well formed exactly when it is complete, lies within the data, and has as many bytes
      as its elements take. */
  lemma TensorsHaveTheirBytes(e: Entry, size: nat)
    requires e.key != "__metadata__"
    ensures WellFormed(e, size) <==>
      && e.key != "" && e.value.Object? && e.value.shape.Some? && e.value.offsets.Some? && e.value.dtype.Some?
      && (forall i :: 0 <= i < |e.value.shape.value| ==> e.value.shape.value[i] >= 0)
      && 0 <= e.value.offsets.value.0 <= e.value.offsets.value.1 <= size
      && BytesFit(e.value.dtype.value, Product(e.value.shape.value), e.value.offsets.value.1 - e.value.offsets.value.0)
  {
  }

  /** An entry with the key of the metadata is never a tensor: it may be any object, but must be one. */
  lemma MetadataIsNoTensor(e: Entry, size: nat)
    requires e.key == "__metadata__"
    ensures WellFormed(e, size) <==> e.value != NotAnObject
    ensures WellFormed(e, size) ==> Ranges([e], size) == [] && Parameters([e], size) == 0
    ensures TensorKeys([e]) == {}
  {
    if WellFormed(e, size) {
      assert [e][..0] == [];
    }
  }

  /** A file is read when it has its eight bytes of header length, a header of two bytes to 100 MiB that lies within
      it, and in the header at least one tensor and no key twice; everything after the header is data. */
  lemma FilesAreReadable(f: File)
    ensures Readable(f) <==>
      && f.size >= 10 && 2 <= f.headerSize <= 104_857_600 && f.size >= 8 + f.headerSize && f.header.Some?
      && (exists i :: 0 <= i < |f.header.value| && f.header.value[i].key != "__metadata__")
      && !exists i, j :: 0 <= i < j < |f.header.value| && f.header.value[i].key == f.header.value[j].key
    ensures Readable(f) ==> 8 + f.headerSize + DataSize(f) == f.size
    ensures Acceptable(f) <==>
      && Readable(f) && (forall i :: 0 <= i < |f.header.value| ==> WellFormed(f.header.value[i], DataSize(f)))
      && Parameters(f.header.value, DataSize(f)) <= 9_223_372_036_854_775_807
      && Tiles(Ranges(f.header.value, DataSize(f)), DataSize(f))
  {
    if f.header.Some? {
      var entries := f.header.value;
      if i :| 0 <= i < |entries| && entries[i].key != "__metadata__" {
        assert entries[i].key in TensorKeys(entries);
      }
      if TensorKeys(entries) != {} {
        var key :| key in TensorKeys(entries);
      }
    }
  }

  /** The number of elements of a shape: one for a scalar, and one dimension more multiplies it. */
  lemma ElementsOfAShape(shape: seq<int>, n: int)
    ensures Product([]) == 1 && Product(shape + [n]) == Product(shape) * n
  {
    assert (shape + [n])[..|shape|] == shape;
  }

  // ---- The check as the program runs it ----

  /** Whether every dimension is a natural number, and the number of elements. */
  method CountElements(shape: seq<int>) returns (valid: bool, count: nat)
    ensures valid <==> forall i :: 0 <= i < |shape| ==> shape[i] >= 0
    ensures valid ==> count == Product(shape)
  {
    var i := 0;
    while i < |shape|
      invariant 0 <= i <= |shape|
      invariant forall k :: 0 <= k < i ==> shape[k] >= 0
    {
      if shape[i] < 0 { return false, 0; }
      i := i + 1;
    }
    count := 1;
    i := 0;
    while i < |shape|
      invariant 0 <= i <= |shape| && count == Product(shape[..i])
    {
      assert shape[..i + 1][..i] == shape[..i];
      count := count * shape[i];
      i := i + 1;
    }
    assert shape[..i] == shape;
    valid := true;
  }

  /** The checks on one tensor's description, in the program's order. */
  method CheckTensor(value: Value, size: nat) returns (described: bool, count: nat)
    ensures described <==> Described(value, size)
    ensures described ==> count == Product(value.shape.value)
  {
    count := 0;
    if value.NotAnObject? || value.shape.None? || value.offsets.None? { return false, 0; }
    var natural;
    natural, count := CountElements(value.shape.value);
    var (start, end) := value.offsets.value;
    if !natural || !(0 <= start <= end <= size) { return false, 0; }
    if value.dtype.None? || DtypeBits(value.dtype.value).None? { return false, 0; }
    var bits := count * DtypeBits(value.dtype.value).value;
    described := bits % 8 == 0 && end - start == bits / 8;
  }

  method HasUniqueKeys(entries: seq<Entry>) returns (unique: bool)
    ensures unique <==> UniqueKeys(entries)
  {
    var seen: set<string> := {};
    var i := 0;
    while i < |entries|
      invariant 0 <= i <= |entries| && UniqueKeys(entries[..i])
      invariant seen == set k | 0 <= k < i :: entries[k].key
    {
      if entries[i].key in seen { return false; }
      seen := seen + {entries[i].key};
      i := i + 1;
    }
    assert entries[..i] == entries;
    unique := true;
  }

  /** The sorted sweep with its running cursor. */
  method Sweep(ranges: seq<Range>, size: nat) returns (tiled: bool)
    requires forall i :: 0 <= i < |ranges| ==> ranges[i].start <= ranges[i].end <= size
    ensures tiled <==> Tiles(ranges, size)
  {
    var sorted := Sorted(ranges);
    SortedSweepDecidesTiling(ranges, size);
    var cursor := 0;
    var i := 0;
    while i < |sorted|
      invariant 0 <= i <= |sorted| && Chained(sorted, i) && cursor == CursorAt(sorted, i)
    {
      if sorted[i].start != cursor {
        assert !Linked(sorted, i);
        return false;
      }
      cursor := sorted[i].end;
      assert Linked(sorted, i);
      i := i + 1;
    }
    tiled := cursor == size;
  }

  lemma {:induction false} ParametersGrow(entries: seq<Entry>, size: nat, i: nat)
    requires AllWellFormed(entries, size) && i <= |entries|
    ensures Parameters(entries[..i], size) <= Parameters(entries, size)
  {
    if i < |entries| {
      ParametersGrow(entries[..|entries| - 1], size, i);
      assert entries[..|entries| - 1][..i] == entries[..i];
    } else {
      assert entries[..i] == entries;
    }
  }

  lemma Extend(entries: seq<Entry>, size: nat, i: nat)
    requires i < |entries| && AllWellFormed(entries[..i], size)
    ensures AllWellFormed(entries[..i + 1], size) <==> WellFormed(entries[i], size)
    ensures WellFormed(entries[i], size) && entries[i].key == METADATA ==>
              && Ranges(entries[..i + 1], size) == Ranges(entries[..i], size)
              && Parameters(entries[..i + 1], size) == Parameters(entries[..i], size)
    ensures WellFormed(entries[i], size) && entries[i].key != METADATA ==>
              var v := entries[i].value;
              && Ranges(entries[..i + 1], size)
                 == Ranges(entries[..i], size) + [Range(v.offsets.value.0, v.offsets.value.1, entries[i].key)]
              && Parameters(entries[..i + 1], size) == Parameters(entries[..i], size) + Product(v.shape.value)
    ensures TensorKeys(entries[..i + 1]) == TensorKeys(entries[..i]) + if entries[i].key == METADATA then {} else {entries[i].key}
    ensures WellFormed(entries[i], size) && entries[i].key != METADATA ==>
              Dtypes(entries[..i + 1]) == Dtypes(entries[..i]) + {entries[i].value.dtype.value}
    ensures entries[i].key == METADATA ==> Dtypes(entries[..i + 1]) == Dtypes(entries[..i])
  {
    var next := entries[..i + 1];
    assert next[..i] == entries[..i] && next[i] == entries[i];
    assert forall k :: 0 <= k < i ==> next[k] == entries[..i][k];
  }

  /** One pass over the header; the summary is there exactly when every entry is well-formed and the
      parameters can be counted. */
  method ReadTensors(entries: seq<Entry>, size: nat) returns (valid: bool, ranges: seq<Range>, summary: Summary)
    ensures valid <==> AllWellFormed(entries, size) && Parameters(entries, size) <= MAX_PARAMETER_COUNT
    ensures valid ==> ranges == Ranges(entries, size)
    ensures valid ==> summary == Summary(TensorKeys(entries), Parameters(entries, size), Dtypes(entries))
  {
    summary := Summary({}, 0, {});
    ranges := [];
    var i := 0;
    while i < |entries|
      invariant 0 <= i <= |entries| && AllWellFormed(entries[..i], size)
      invariant Parameters(entries[..i], size) <= MAX_PARAMETER_COUNT
      invariant ranges == Ranges(entries[..i], size)
      invariant summary == Summary(TensorKeys(entries[..i]), Parameters(entries[..i], size), Dtypes(entries[..i]))
    {
      Extend(entries, size, i);
      var (key, value) := (entries[i].key, entries[i].value);
      if key == METADATA {
        if value.NotAnObject? { return false, [], summary; }
      } else {
        var described, count := CheckTensor(value, size);
        if key == "" || !described { return false, [], summary; }
        var total := summary.parameterCount + count;
        if total > MAX_PARAMETER_COUNT {
          if AllWellFormed(entries, size) { ParametersGrow(entries, size, i + 1); }
          return false, [], summary;
        }
        ranges := ranges + [Range(value.offsets.value.0, value.offsets.value.1, key)];
        summary := Summary(summary.tensorNames + {key}, total, summary.dtypes + {value.dtype.value});
      }
      i := i + 1;
    }
    assert entries[..i] == entries;
    valid := true;
  }

  method ValidateSafetensors(f: File) returns (result: Option<Summary>)
    ensures result.Some? <==> Acceptable(f)
    ensures result.Some? ==>
      result.value == Summary(TensorKeys(f.header.value), Parameters(f.header.value, DataSize(f)), Dtypes(f.header.value))
  {
    if f.size < 10 || !(2 <= f.headerSize <= MAX_HEADER_BYTES) || 8 + f.headerSize > f.size || f.header.None? {
      return None;
    }
    var entries := f.header.value;
    var unique := HasUniqueKeys(entries);
    if !unique || TensorKeys(entries) == {} { return None; }
    var size := f.size - 8 - f.headerSize;
    var valid, ranges, summary := ReadTensors(entries, size);
    if !valid { return None; }
    var tiled := Sweep(ranges, size);
    if !tiled { return None; }
    result := Some(summary);
  }
}
