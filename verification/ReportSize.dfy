/** How large the report file of a pair is, as the runner writes it. */
module ReportSize {
  import opened Contract
  import opened EvaluationReport
  import opened JsonText
  import opened ReportChecks

  /** The size of the file the runner writes for a pair. */
  function ReportBytes(w: Writer, p: Pair): nat {
    Utf8(Render(w, PairJson(p), 0))
  }

  // ---- The share of the sample ids ----

  /** A list of ids three levels deep: each with its quotes, indentation, comma and line feed. */
  function IdsSize(ids: seq<string>): nat {
    10 * |ids| + SumOf(InEscapes, ids)
  }

  lemma {:induction false} StringItemsSize(w: Writer, s: seq<string>)
    ensures ItemsSize(w, Strings(s).items, 3) == IdsSize(s)
  {
    if s != [] {
      assert Strings(s).items[1..] == Strings(s[1..]).items;
      StringItemsSize(w, s[1..]);
      assert Measured(InEscapes, s[0]) == EscapedBytes(s[0]);
    }
  }

  // ---- The share of everything else ----

  const CATEGORY_BYTES := 2480
  const MEMBER_BYTES := 520
  const FIXED_BYTES := 14_100

  lemma LeafAtMost(w: Writer, key: string, v: Scalar, depth: nat)
    requires SaneWriter(w, MAX_RECORDS) && |key| <= 25 && depth <= 4 && (v.Int? ==> 0 <= v.n <= MAX_RECORDS)
    ensures MemberSize(w, Member(key, Leaf(v)), depth) <= 200
  {
    EscapedAtMost(key);
    assert Ascii(ScalarText(w, v));
    AsciiBytes(ScalarText(w, v));
  }

  lemma TextAtMost(w: Writer, key: string, text: string, depth: nat)
    requires |key| <= 17 && depth <= 4
    ensures MemberSize(w, Member(key, Str(text)), depth) <= 120 + 6 * |text|
  {
    EscapedAtMost(key);
    EscapedAtMost(text);
  }

  predicate SmallCounts(total: int, correct: int, invalid: int) {
    0 <= total <= MAX_RECORDS && 0 <= correct <= MAX_RECORDS && 0 <= invalid <= MAX_RECORDS
  }

  predicate SmallMetric(m: CategoryMetric) {
    |m.category| <= 256 && SmallCounts(m.total, m.correct, m.invalid)
  }

  lemma OneMember(w: Writer, member: Member, depth: nat)
    ensures MembersSize(w, [member], depth) == MemberSize(w, member, depth)
  {
    assert [member][1..] == [];
  }

  lemma TwoParts(w: Writer, a: seq<Member>, b: seq<Member>, depth: nat)
    requires a != []
    ensures Size(w, Obj(a + b), depth) == 2 + 2 * depth + MembersSize(w, a, depth + 1) + MembersSize(w, b, depth + 1)
  {
    MembersSizeOfConcat(w, a, b, depth + 1);
  }

  lemma ThreeParts(w: Writer, a: seq<Member>, b: seq<Member>, c: seq<Member>, depth: nat)
    requires a != []
    ensures Size(w, Obj(a + b + c), depth)
         == 2 + 2 * depth + MembersSize(w, a, depth + 1) + MembersSize(w, b, depth + 1) + MembersSize(w, c, depth + 1)
  {
    MembersSizeOfConcat(w, a, b, depth + 1);
    TwoParts(w, a + b, c, depth);
  }

  lemma RowSize(w: Writer, first: Member, rest: seq<Member>)
    requires MemberSize(w, first, 4) <= 1656 && |rest| <= 4 && MembersSize(w, rest, 4) <= 200 * |rest|
    ensures 2 + 2 * 3 + Size(w, Obj([first] + rest), 3) <= CATEGORY_BYTES
  {
    OneMember(w, first, 4);
    TwoParts(w, [first], rest, 3);
  }

  lemma NamedRowSize(w: Writer, category: string, rest: seq<Member>)
    requires |category| <= 256 && |rest| <= 4 && MembersWithin(w, rest, 4, 200)
    ensures 2 + 2 * 3 + Size(w, Obj([Member("category", Str(category))] + rest), 3) <= CATEGORY_BYTES
  {
    TextAtMost(w, "category", category, 4);
    MembersAtMost(w, rest, 4, 200);
    RowSize(w, Member("category", Str(category)), rest);
  }

  lemma MetricSize(w: Writer, m: CategoryMetric)
    requires SaneWriter(w, MAX_RECORDS) && SmallMetric(m)
    ensures 2 + 2 * 3 + Size(w, MetricJson(m), 3) <= CATEGORY_BYTES
  {
    var counts := MetricCounts(m);
    forall i | 0 <= i < |counts| ensures MemberSize(w, counts[i], 4) <= 200 {
      LeafAtMost(w, counts[i].key, counts[i].value.value, 4);
    }
    NamedRowSize(w, m.category, counts);
  }

  lemma ChangeSize(w: Writer, c: Change)
    requires SaneWriter(w, MAX_RECORDS) && |c.category| <= 256
    ensures 2 + 2 * 3 + Size(w, ChangeJson(c), 3) <= CATEGORY_BYTES
  {
    var numbers := ChangeNumbers(c);
    forall i | 0 <= i < |numbers| ensures MemberSize(w, numbers[i], 4) <= 200 {
      LeafAtMost(w, numbers[i].key, numbers[i].value.value, 4);
    }
    NamedRowSize(w, c.category, numbers);
  }

  predicate SmallHead(r: Report) {
    && |r.sha256| <= 64 && |r.model| <= 16 && |r.template| <= 16 && SmallCounts(r.total, r.correct, r.invalid)
  }

  predicate SmallReport(r: Report) {
    && SmallHead(r) && r.sampleIds != []
    && forall i :: 0 <= i < |r.categories| ==> SmallMetric(r.categories[i])
  }

  lemma HeadSize(w: Writer, r: Report)
    requires SaneWriter(w, MAX_RECORDS) && SmallHead(r)
    ensures MembersSize(w, ReportHead(r), 2) <= 8 * MEMBER_BYTES
  {
    var head := ReportHead(r);
    forall i | 0 <= i < |head| ensures MemberSize(w, head[i], 2) <= MEMBER_BYTES {
      if head[i].value.Leaf? {
        LeafAtMost(w, head[i].key, head[i].value.value, 2);
      } else {
        TextAtMost(w, head[i].key, head[i].value.text, 2);
      }
    }
    MembersAtMost(w, head, 2, MEMBER_BYTES);
  }

  /** A list of category rows as a member. */
  lemma RowsSize(w: Writer, key: string, rows: seq<Tree>)
    requires |key| <= 16 && ItemsWithin(w, rows, 3, CATEGORY_BYTES)
    ensures MembersSize(w, [Member(key, List(rows))], 2) <= 120 + CATEGORY_BYTES * |rows|
  {
    EscapedAtMost(key);
    ItemsAtMost(w, rows, 3, CATEGORY_BYTES);
    OneMember(w, Member(key, List(rows)), 2);
  }

  lemma IdsMemberSize(w: Writer, ids: seq<string>)
    requires ids != []
    ensures IdsSize(ids) <= MembersSize(w, [Member("sample_ids", Strings(ids))], 2) <= 80 + IdsSize(ids)
  {
    EscapedAtMost("sample_ids");
    StringItemsSize(w, ids);
    OneMember(w, Member("sample_ids", Strings(ids)), 2);
  }

  lemma CategoriesSize(w: Writer, metrics: seq<CategoryMetric>)
    requires SaneWriter(w, MAX_RECORDS) && forall i :: 0 <= i < |metrics| ==> SmallMetric(metrics[i])
    ensures MembersSize(w, [Member("categories", List(MetricTrees(metrics)))], 2) <= 120 + CATEGORY_BYTES * |metrics|
  {
    var rows := MetricTrees(metrics);
    forall i | 0 <= i < |rows| ensures 2 + 2 * 3 + Size(w, rows[i], 3) <= CATEGORY_BYTES {
      MetricSize(w, metrics[i]);
    }
    RowsSize(w, "categories", rows);
  }

  /** A report takes as much as its ids, a bounded amount for each category, and a bounded rest. */
  lemma ReportPartSize(w: Writer, r: Report)
    requires SaneWriter(w, MAX_RECORDS) && SmallReport(r)
    ensures IdsSize(r.sampleIds) <= Size(w, ReportJson(r), 1) <= 4400 + CATEGORY_BYTES * |r.categories| + IdsSize(r.sampleIds)
  {
    HeadSize(w, r);
    CategoriesSize(w, r.categories);
    IdsMemberSize(w, r.sampleIds);
    ThreeParts(w, ReportHead(r), [Member("categories", List(MetricTrees(r.categories)))], [Member("sample_ids", Strings(r.sampleIds))], 1);
  }

  predicate SmallComparison(x: Comparison) {
    && |x.sha256| <= 64 && |x.baselineModel| <= 16 && |x.candidateModel| <= 16 && x.reason.None?
    && forall i :: 0 <= i < |x.changes| ==> |x.changes[i].category| <= 256
  }

  lemma ComparisonHeadSize(w: Writer, x: Comparison)
    requires SaneWriter(w, MAX_RECORDS) && SmallComparison(x)
    ensures MembersSize(w, ComparisonHead(x), 2) <= 9 * MEMBER_BYTES
  {
    var head := ComparisonHead(x);
    forall i | 0 <= i < |head| ensures MemberSize(w, head[i], 2) <= MEMBER_BYTES {
      if head[i].value.Leaf? {
        LeafAtMost(w, head[i].key, head[i].value.value, 2);
      } else {
        TextAtMost(w, head[i].key, head[i].value.text, 2);
      }
    }
    MembersAtMost(w, head, 2, MEMBER_BYTES);
  }

  lemma ChangesSize(w: Writer, changes: seq<Change>)
    requires SaneWriter(w, MAX_RECORDS) && forall i :: 0 <= i < |changes| ==> |changes[i].category| <= 256
    ensures MembersSize(w, [Member("category_changes", List(ChangeTrees(changes)))], 2) <= 120 + CATEGORY_BYTES * |changes|
  {
    var rows := ChangeTrees(changes);
    forall i | 0 <= i < |rows| ensures 2 + 2 * 3 + Size(w, rows[i], 3) <= CATEGORY_BYTES {
      ChangeSize(w, changes[i]);
    }
    RowsSize(w, "category_changes", rows);
  }

  lemma ComparisonPartSize(w: Writer, x: Comparison)
    requires SaneWriter(w, MAX_RECORDS) && SmallComparison(x)
    ensures Size(w, ComparisonJson(x), 1) <= 5000 + CATEGORY_BYTES * |x.changes|
  {
    ComparisonHeadSize(w, x);
    ChangesSize(w, x.changes);
    TwoParts(w, ComparisonHead(x), [Member("category_changes", List(ChangeTrees(x.changes)))], 1);
  }

  /** The three parts under their keys. */
  lemma WholeSize(w: Writer, b: Tree, c: Tree, x: Tree)
    ensures var parts := Size(w, b, 1) + Size(w, c, 1) + Size(w, x, 1);
            parts <= Size(w, Obj([Member("baseline", b)] + [Member("candidate", c)] + [Member("comparison", x)]), 0) <= parts + 230
  {
    var (first, second, third) := (Member("baseline", b), Member("candidate", c), Member("comparison", x));
    EscapedAtMost(first.key);
    EscapedAtMost(second.key);
    EscapedAtMost(third.key);
    OneMember(w, first, 1);
    OneMember(w, second, 1);
    OneMember(w, third, 1);
    ThreeParts(w, [first], [second], [third], 0);
  }

  /** A pair's file holds both id lists, and what else it holds is bounded by the number of categories. */
  lemma PairSize(w: Writer, p: Pair)
    requires SaneWriter(w, MAX_RECORDS) && SmallReport(p.baseline) && SmallReport(p.candidate) && SmallComparison(p.comparison)
    ensures var ids := IdsSize(p.baseline.sampleIds) + IdsSize(p.candidate.sampleIds);
            var rows := |p.baseline.categories| + |p.candidate.categories| + |p.comparison.changes|;
            ids <= ReportBytes(w, p) <= ids + CATEGORY_BYTES * rows + FIXED_BYTES
  {
    RenderedSize(w, PairJson(p), 0);
    ReportPartSize(w, p.baseline);
    ReportPartSize(w, p.candidate);
    ComparisonPartSize(w, p.comparison);
    WholeSize(w, ReportJson(p.baseline), ReportJson(p.candidate), ComparisonJson(p.comparison));
  }
}
