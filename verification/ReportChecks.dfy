/** The two checks of a pair report: the node agent's, on the report file, and the control plane's, on the
    metadata the agent sends. */
module ReportChecks {
  import opened Contract
  import opened EvaluationReport
  import opened JsonText

  // ---- The bounded JSON tree ----

  function Nodes(t: Tree): nat {
    match t
    case Leaf(_) | Str(_) => 1
    case List(items) => 1 + NodesOfItems(items)
    case Obj(members) => 1 + NodesOfMembers(members)
  }

  function NodesOfItems(items: seq<Tree>): nat {
    if items == [] then 0 else Nodes(items[0]) + NodesOfItems(items[1..])
  }

  function NodesOfMembers(members: seq<Member>): nat {
    if members == [] then 0 else Nodes(members[0].value) + NodesOfMembers(members[1..])
  }

  /** No string or key is too long, and nothing is nested deeper than `depth` levels. */
  predicate Shallow(t: Tree, depth: int) {
    && depth >= 0
    && match t
       case Leaf(_) => true
       case Str(text) => |text| <= MAX_STRING
       case List(items) => forall i :: 0 <= i < |items| ==> Shallow(items[i], depth - 1)
       case Obj(members) => forall i :: 0 <= i < |members| ==> |members[i].key| <= MAX_KEY && Shallow(members[i].value, depth - 1)
  }

  /** The traversal with its running node counter; nothing when it gives up. */
  function Bounded(t: Tree, depth: nat, counter: nat): Option<nat> {
    if counter + 1 > MAX_JSON_NODES || depth > MAX_JSON_DEPTH then None
    else match t
      case Leaf(_) => Some(counter + 1)
      case Str(text) => if |text| > MAX_STRING then None else Some(counter + 1)
      case List(items) => BoundedItems(items, depth + 1, counter + 1)
      case Obj(members) => BoundedMembers(members, depth + 1, counter + 1)
  }

  function BoundedItems(items: seq<Tree>, depth: nat, counter: nat): Option<nat> {
    if items == [] then Some(counter)
    else
      var first := Bounded(items[0], depth, counter);
      if first.None? then None else BoundedItems(items[1..], depth, first.value)
  }

  function BoundedMembers(members: seq<Member>, depth: nat, counter: nat): Option<nat> {
    if members == [] then Some(counter)
    else if |members[0].key| > MAX_KEY then None
    else
      var first := Bounded(members[0].value, depth, counter);
      if first.None? then None else BoundedMembers(members[1..], depth, first.value)
  }

  /** The traversal accepts exactly the trees within the node, depth and length limits, and counts each
      node once. */
  lemma {:induction false} BoundedDecides(t: Tree, depth: nat, counter: nat)
    requires counter <= MAX_JSON_NODES
    ensures Bounded(t, depth, counter) ==
      if counter + Nodes(t) <= MAX_JSON_NODES && Shallow(t, MAX_JSON_DEPTH - depth) then Some(counter + Nodes(t)) else None
  {
    if counter + 1 <= MAX_JSON_NODES && depth <= MAX_JSON_DEPTH {
      match t
      case Leaf(_) =>
      case Str(_) =>
      case List(items) => BoundedItemsDecides(items, depth + 1, counter + 1);
      case Obj(members) => BoundedMembersDecides(members, depth + 1, counter + 1);
    }
  }

  predicate ItemsShallow(items: seq<Tree>, depth: int) {
    forall i :: 0 <= i < |items| ==> Shallow(items[i], depth)
  }

  predicate MembersShallow(members: seq<Member>, depth: int) {
    forall i :: 0 <= i < |members| ==> |members[i].key| <= MAX_KEY && Shallow(members[i].value, depth)
  }

  lemma ShallowItemsSplit(items: seq<Tree>, depth: int)
    requires items != []
    ensures ItemsShallow(items, depth) <==> Shallow(items[0], depth) && ItemsShallow(items[1..], depth)
  {
    assert items == [items[0]] + items[1..];
    if Shallow(items[0], depth) && ItemsShallow(items[1..], depth) {
      forall i | 0 <= i < |items| ensures Shallow(items[i], depth) {
        if i > 0 { assert items[i] == items[1..][i - 1]; }
      }
    }
  }

  lemma ShallowMembersSplit(members: seq<Member>, depth: int)
    requires members != []
    ensures MembersShallow(members, depth)
            <==> |members[0].key| <= MAX_KEY && Shallow(members[0].value, depth) && MembersShallow(members[1..], depth)
  {
    assert members == [members[0]] + members[1..];
    if |members[0].key| <= MAX_KEY && Shallow(members[0].value, depth) && MembersShallow(members[1..], depth) {
      forall i | 0 <= i < |members| ensures |members[i].key| <= MAX_KEY && Shallow(members[i].value, depth) {
        if i > 0 { assert members[i] == members[1..][i - 1]; }
      }
    }
  }

  lemma {:induction false} BoundedItemsDecides(items: seq<Tree>, depth: nat, counter: nat)
    requires counter <= MAX_JSON_NODES
    ensures BoundedItems(items, depth, counter) ==
      if counter + NodesOfItems(items) <= MAX_JSON_NODES && ItemsShallow(items, MAX_JSON_DEPTH - depth)
      then Some(counter + NodesOfItems(items)) else None
  {
    if items != [] {
      ShallowItemsSplit(items, MAX_JSON_DEPTH - depth);
      BoundedDecides(items[0], depth, counter);
      if Bounded(items[0], depth, counter).Some? {
        BoundedItemsDecides(items[1..], depth, counter + Nodes(items[0]));
      }
    }
  }

  lemma {:induction false} BoundedMembersDecides(members: seq<Member>, depth: nat, counter: nat)
    requires counter <= MAX_JSON_NODES
    ensures BoundedMembers(members, depth, counter) ==
      if counter + NodesOfMembers(members) <= MAX_JSON_NODES && MembersShallow(members, MAX_JSON_DEPTH - depth)
      then Some(counter + NodesOfMembers(members)) else None
  {
    if members != [] {
      ShallowMembersSplit(members, MAX_JSON_DEPTH - depth);
      if |members[0].key| <= MAX_KEY {
        BoundedDecides(members[0].value, depth, counter);
        if Bounded(members[0].value, depth, counter).Some? {
          BoundedMembersDecides(members[1..], depth, counter + Nodes(members[0].value));
        }
      }
    }
  }

  // ---- The report as JSON ----

  function Strings(s: seq<string>): Tree {
    List(seq(|s|, i requires 0 <= i < |s| => Str(s[i])))
  }

  function Count(n: int): Tree {
    Leaf(Int(n))
  }

  function Number(x: real): Tree {
    Leaf(Float(x))
  }

  function MetricCounts(m: CategoryMetric): seq<Member> {
    [Member("total", Count(m.total)), Member("correct", Count(m.correct)), Member("invalid", Count(m.invalid)),
     Member("accuracy_percent", Number(m.accuracy))]
  }

  function MetricJson(m: CategoryMetric): Tree {
    Obj([Member("category", Str(m.category))] + MetricCounts(m))
  }

  function ReportHead(r: Report): seq<Member> {
    [Member("dataset_sha256", Str(r.sha256)), Member("model_name", Str(r.model)), Member("template", Str(r.template)),
     Member("total", Count(r.total)), Member("correct", Count(r.correct)), Member("invalid", Count(r.invalid)),
     Member("accuracy_percent", Number(r.accuracy)), Member("average_latency_ms", Number(r.latency))]
  }

  function MetricTrees(metrics: seq<CategoryMetric>): seq<Tree> {
    seq(|metrics|, i requires 0 <= i < |metrics| => MetricJson(metrics[i]))
  }

  function ReportJson(r: Report): Tree {
    Obj(ReportHead(r) + [Member("categories", List(MetricTrees(r.categories)))] + [Member("sample_ids", Strings(r.sampleIds))])
  }

  function ChangeNumbers(c: Change): seq<Member> {
    [Member("baseline_percent", Number(c.baseline)), Member("candidate_percent", Number(c.candidate)),
     Member("percentage_point_change", Number(c.delta))]
  }

  function ChangeJson(c: Change): Tree {
    Obj([Member("category", Str(c.category))] + ChangeNumbers(c))
  }

  function ComparisonHead(c: Comparison): seq<Member> {
    [Member("dataset_sha256", Str(c.sha256)), Member("baseline_model", Str(c.baselineModel)),
     Member("candidate_model", Str(c.candidateModel)), Member("baseline_percent", Number(c.baseline)),
     Member("candidate_percent", Number(c.candidate)), Member("percentage_point_change", Number(c.delta)),
     Member("relative_change_percent", if c.relative.Some? then Number(c.relative.value) else Leaf(Null)),
     Member("comparable", Leaf(Bool(c.reason.None?))),
     Member("reason", if c.reason.Some? then Str(c.reason.value) else Leaf(Null))]
  }

  function ChangeTrees(changes: seq<Change>): seq<Tree> {
    seq(|changes|, i requires 0 <= i < |changes| => ChangeJson(changes[i]))
  }

  function ComparisonJson(c: Comparison): Tree {
    Obj(ComparisonHead(c) + [Member("category_changes", List(ChangeTrees(c.changes)))])
  }

  function PairJson(p: Pair): Tree {
    Obj([Member("baseline", ReportJson(p.baseline))] + [Member("candidate", ReportJson(p.candidate))]
        + [Member("comparison", ComparisonJson(p.comparison))])
  }

  lemma {:induction false} SameSizedItems(items: seq<Tree>, size: nat)
    requires forall i :: 0 <= i < |items| ==> Nodes(items[i]) == size
    ensures NodesOfItems(items) == size * |items|
  {
    if items != [] {
      SameSizedItems(items[1..], size);
    }
  }

  predicate Leaves(members: seq<Member>) {
    forall i :: 0 <= i < |members| ==> members[i].value.Leaf? || members[i].value.Str?
  }

  lemma {:induction false} LeavesCountOnce(members: seq<Member>)
    requires Leaves(members)
    ensures NodesOfMembers(members) == |members|
  {
    if members != [] {
      LeavesCountOnce(members[1..]);
    }
  }

  lemma {:induction false} NodesOfOneMore(members: seq<Member>, last: Member)
    ensures NodesOfMembers(members + [last]) == NodesOfMembers(members) + Nodes(last.value)
  {
    if members == [] {
      assert members + [last] == [last] && [last][1..] == [];
    } else {
      NodesOfOneMore(members[1..], last);
      assert (members + [last])[1..] == members[1..] + [last];
    }
  }

  lemma ReportNodes(r: Report)
    ensures Nodes(ReportJson(r)) == 11 + 6 * |r.categories| + |r.sampleIds|
  {
    var metrics := MetricTrees(r.categories);
    forall i | 0 <= i < |metrics| ensures Nodes(metrics[i]) == 6 {
      LeavesCountOnce(MetricJson(r.categories[i]).members);
    }
    SameSizedItems(metrics, 6);
    SameSizedItems(Strings(r.sampleIds).items, 1);
    LeavesCountOnce(ReportHead(r));
    var withMetrics := ReportHead(r) + [Member("categories", List(metrics))];
    NodesOfOneMore(ReportHead(r), Member("categories", List(metrics)));
    NodesOfOneMore(withMetrics, Member("sample_ids", Strings(r.sampleIds)));
  }

  lemma ComparisonNodes(c: Comparison)
    ensures Nodes(ComparisonJson(c)) == 11 + 5 * |c.changes|
  {
    var changes := ChangeTrees(c.changes);
    forall i | 0 <= i < |changes| ensures Nodes(changes[i]) == 5 {
      LeavesCountOnce(ChangeJson(c.changes[i]).members);
    }
    SameSizedItems(changes, 5);
    LeavesCountOnce(ComparisonHead(c));
    NodesOfOneMore(ComparisonHead(c), Member("category_changes", List(changes)));
  }

  /** A pair report over n samples in k categories has 34 + 17k + 2n nodes. */
  lemma PairNodes(p: Pair, k: nat, n: nat)
    requires |p.baseline.categories| == |p.candidate.categories| == |p.comparison.changes| == k
    requires |p.baseline.sampleIds| == |p.candidate.sampleIds| == n
    ensures Nodes(PairJson(p)) == 34 + 17 * k + 2 * n
  {
    ReportNodes(p.baseline);
    ReportNodes(p.candidate);
    ComparisonNodes(p.comparison);
    var (b, c) := (Member("baseline", ReportJson(p.baseline)), Member("candidate", ReportJson(p.candidate)));
    NodesOfOneMore([], b);
    assert [] + [b] == [b];
    NodesOfOneMore([b], c);
    NodesOfOneMore([b] + [c], Member("comparison", ComparisonJson(p.comparison)));
  }

  // ---- The node agent's check ----

  predicate CountsFit(total: int, correct: int, invalid: int) {
    0 <= correct <= total && 0 <= invalid <= total && correct + invalid <= total
  }

  predicate CategoryFits(rd: Rounding, m: CategoryMetric, total: int) {
    && SafeShortText(m.category).Some? && 1 <= m.total <= total && CountsFit(m.total, m.correct, m.invalid)
    && 0.0 <= m.accuracy <= 100.0 && m.accuracy == Percent(rd, m.correct, m.total)
  }

  function Texts(s: seq<string>): seq<Option<string>> {
    seq(|s|, i requires 0 <= i < |s| => SafeShortText(s[i]))
  }

  function Names(metrics: seq<CategoryMetric>): seq<string> {
    seq(|metrics|, i requires 0 <= i < |metrics| => metrics[i].category)
  }

  predicate DistinctTexts(s: seq<string>) {
    (forall i :: 0 <= i < |s| ==> SafeShortText(s[i]).Some?) && Distinct(Texts(s))
  }

  /** The three counts of all categories together. */
  datatype Totals = Totals(total: int, correct: int, invalid: int)

  function TotalsOf(metrics: seq<CategoryMetric>): Totals {
    if metrics == [] then Totals(0, 0, 0)
    else
      var (t, m) := (TotalsOf(metrics[..|metrics| - 1]), metrics[|metrics| - 1]);
      Totals(t.total + m.total, t.correct + m.correct, t.invalid + m.invalid)
  }

  predicate HeadFits(rd: Rounding, r: Report) {
    && IsSha256(r.sha256) && SafeShortText(r.model).Some? && (r.template == "base" || r.template == "instruct")
    && 1 <= r.total <= MAX_RECORDS && CountsFit(r.total, r.correct, r.invalid) && r.latency >= 0.0
    && 0.0 <= r.accuracy <= 100.0 && r.accuracy == Percent(rd, r.correct, r.total)
  }

  predicate MetricFits(rd: Rounding, r: Report) {
    && HeadFits(rd, r)
    && |r.categories| <= MAX_CATEGORIES && |r.sampleIds| == r.total && DistinctTexts(r.sampleIds)
    && (forall i :: 0 <= i < |r.categories| ==> CategoryFits(rd, r.categories[i], r.total))
    && DistinctTexts(Names(r.categories))
    && TotalsOf(r.categories) == Totals(r.total, r.correct, r.invalid)
  }

  function Normal(s: string): string {
    if SafeShortText(s).Some? then SafeShortText(s).value else s
  }

  function NormalMetrics(metrics: seq<CategoryMetric>): seq<CategoryMetric> {
    seq(|metrics|, i requires 0 <= i < |metrics| => metrics[i].(category := Normal(metrics[i].category)))
  }

  function NormalReport(r: Report): Report {
    r.(model := Normal(r.model), categories := NormalMetrics(r.categories),
       sampleIds := seq(|r.sampleIds|, i requires 0 <= i < |r.sampleIds| => Normal(r.sampleIds[i])))
  }

  predicate ChangeFits(rd: Rounding, x: Change, name: string, b: CategoryMetric, c: CategoryMetric) {
    && SafeShortText(x.category) == Some(name) && x.baseline == b.accuracy && x.candidate == c.accuracy
    && x.delta == rd.four(c.accuracy - b.accuracy)
  }

  predicate ComparisonHeadFits(rd: Rounding, x: Comparison, b: Report, c: Report) {
    && x.reason.None? && x.sha256 == b.sha256 && IsSha256(x.sha256)
    && SafeShortText(x.baselineModel) == Some(b.model) && SafeShortText(x.candidateModel) == Some(c.model)
    && x.baseline == b.accuracy && x.candidate == c.accuracy
    && x.delta == rd.four(c.accuracy - b.accuracy) && x.relative == Relative(rd, x.delta, b.accuracy)
  }

  /** The changes, in the order of the sorted names, against the two summaries by category. */
  predicate ChangesFit(rd: Rounding, changes: seq<Change>, names: seq<string>, bs: map<string, CategoryMetric>, cs: map<string, CategoryMetric>) {
    && |changes| <= MAX_CATEGORIES && bs.Keys == cs.Keys && (forall name <- bs :: bs[name].total == cs[name].total)
    && |changes| == |names|
    && forall i :: 0 <= i < |names| ==>
         names[i] in bs && names[i] in cs && ChangeFits(rd, changes[i], names[i], bs[names[i]], cs[names[i]])
  }

  /** The comparison against two normalised summaries. */
  ghost predicate ComparisonFits(rd: Rounding, x: Comparison, b: Report, c: Report) {
    var (bs, cs) := (ByCategory(b.categories), ByCategory(c.categories));
    ComparisonHeadFits(rd, x, b, c) && ChangesFit(rd, x.changes, SharedNames(bs, cs), bs, cs)
  }

  /** What the agent knows of the run it scheduled. */
  datatype Expected = Expected(sha256: string, total: nat, baseTemplate: string, candidateTemplate: string)

  ghost predicate ReportsFit(rd: Rounding, p: Pair, e: Expected) {
    var (b, c) := (NormalReport(p.baseline), NormalReport(p.candidate));
    && MetricFits(rd, p.baseline) && MetricFits(rd, p.candidate)
    && b.model == "baseline" && c.model == "candidate"
    && b.template == e.baseTemplate && c.template == e.candidateTemplate
    && ComparisonFits(rd, p.comparison, b, c)
    && b.sha256 == c.sha256 && b.total == c.total && b.sampleIds == c.sampleIds
    && b.sha256 == e.sha256 && b.total == e.total
  }

  /** The report file, of so many bytes, holding this pair. */
  ghost predicate AgentAccepts(rd: Rounding, p: Pair, e: Expected, fileSize: nat) {
    1 <= fileSize <= MAX_REPORT_BYTES && Bounded(PairJson(p), 0, 0).Some? && ReportsFit(rd, p, e)
  }

  datatype Warning = BaselineAllInvalid | CandidateAllInvalid

  /** What the agent reports to the control plane. */
  datatype Metadata = Metadata(
    baseline: Report, candidate: Report, comparison: Comparison, resultPath: string, manifestPath: string, warnings: seq<Warning>)

  function WarningsOf(b: Report, c: Report): seq<Warning> {
    (if b.invalid == b.total then [BaselineAllInvalid] else []) + (if c.invalid == c.total then [CandidateAllInvalid] else [])
  }

  function NormalChanges(changes: seq<Change>): seq<Change> {
    seq(|changes|, i requires 0 <= i < |changes| => changes[i].(category := Normal(changes[i].category)))
  }

  function NormalComparison(x: Comparison): Comparison {
    x.(baselineModel := Normal(x.baselineModel), candidateModel := Normal(x.candidateModel), changes := NormalChanges(x.changes))
  }

  function MetadataOf(p: Pair, resultPath: string, manifestPath: string): Metadata {
    var (b, c) := (NormalReport(p.baseline), NormalReport(p.candidate));
    Metadata(b, c, NormalComparison(p.comparison), resultPath, manifestPath, WarningsOf(b, c))
  }

  // ---- The control plane's check ----

  predicate Near(a: real, b: real) {
    -TOLERANCE <= a - b <= TOLERANCE
  }

  predicate ShortName(s: string) {
    1 <= |s| <= 256
  }

  predicate CategoryModel(rd: Rounding, m: CategoryMetric) {
    && ShortName(m.category) && 1 <= m.total <= MAX_RECORDS && CountsFit(m.total, m.correct, m.invalid)
    && 0.0 <= m.accuracy <= 100.0 && Near(m.accuracy, Percent(rd, m.correct, m.total))
  }

  predicate SummaryModel(rd: Rounding, r: Report) {
    && IsSha256(r.sha256) && ShortName(r.model) && (r.template == "base" || r.template == "instruct")
    && 1 <= r.total <= MAX_RECORDS && CountsFit(r.total, r.correct, r.invalid)
    && 0.0 <= r.accuracy <= 100.0 && r.latency >= 0.0 && 1 <= |r.categories| <= MAX_CATEGORIES
    && (forall i :: 0 <= i < |r.categories| ==> CategoryModel(rd, r.categories[i]))
    && Distinct(Names(r.categories)) && TotalsOf(r.categories) == Totals(r.total, r.correct, r.invalid)
    && Near(r.accuracy, Percent(rd, r.correct, r.total))
  }

  predicate ChangeModel(rd: Rounding, x: Change) {
    && ShortName(x.category) && 0.0 <= x.baseline <= 100.0 && 0.0 <= x.candidate <= 100.0
    && -100.0 <= x.delta <= 100.0 && Near(x.delta, rd.four(x.candidate - x.baseline))
  }

  predicate ComparisonHeadModel(rd: Rounding, x: Comparison) {
    var expected := rd.four(x.candidate - x.baseline);
    && IsSha256(x.sha256) && ShortName(x.baselineModel) && ShortName(x.candidateModel)
    && 0.0 <= x.baseline <= 100.0 && 0.0 <= x.candidate <= 100.0 && -100.0 <= x.delta <= 100.0
    && x.reason.None? && Near(x.delta, expected)
    && (if x.baseline == 0.0 then x.relative.None?
        else x.relative.Some? && Near(x.relative.value, rd.four(expected * 100.0 / x.baseline)))
  }

  predicate ChangesModel(rd: Rounding, changes: seq<Change>) {
    && 1 <= |changes| <= MAX_CATEGORIES
    && (forall i :: 0 <= i < |changes| ==> ChangeModel(rd, changes[i]))
    && (forall i, j :: 0 <= i < j < |changes| ==> changes[i].category != changes[j].category)
  }

  /** The changes quote the two summaries, category by category. */
  predicate ChangesQuote(changes: seq<Change>, bs: map<string, CategoryMetric>, cs: map<string, CategoryMetric>) {
    && bs.Keys == cs.Keys && ChangedNames(changes) == bs.Keys
    && (forall i :: 0 <= i < |changes| ==>
          && changes[i].category in bs && changes[i].category in cs
          && changes[i].baseline == bs[changes[i].category].accuracy
          && changes[i].candidate == cs[changes[i].category].accuracy)
  }

  function ChangedNames(changes: seq<Change>): set<string> {
    set i | 0 <= i < |changes| :: changes[i].category
  }

  predicate ControlAccepts(rd: Rounding, m: Metadata) {
    var (b, c, x) := (m.baseline, m.candidate, m.comparison);
    && SummaryModel(rd, b) && SummaryModel(rd, c) && b.sha256 == c.sha256 && b.total == c.total
    && ComparisonHeadModel(rd, x) && ChangesModel(rd, x.changes)
    && 1 <= |m.resultPath| <= 1024 && 1 <= |m.manifestPath| <= 1024 && |m.warnings| <= 2
    && b.model == "baseline" && c.model == "candidate"
    && x.sha256 == b.sha256 && x.baselineModel == b.model && x.candidateModel == c.model
    && x.baseline == b.accuracy && x.candidate == c.accuracy
    && ChangesQuote(x.changes, ByCategory(b.categories), ByCategory(c.categories))
    && (BaselineAllInvalid in m.warnings <==> b.invalid == b.total)
    && (CandidateAllInvalid in m.warnings <==> c.invalid == c.total)
  }

  // ---- The agent's check as the program runs it ----

  method NormalizeIds(ids: seq<string>) returns (normalized: seq<string>, ok: bool)
    ensures ok <==> DistinctTexts(ids)
    ensures ok ==> |normalized| == |ids| && forall i :: 0 <= i < |ids| ==> normalized[i] == Normal(ids[i])
  {
    normalized := [];
    var seen: set<string> := {};
    var repeated := false;
    for i := 0 to |ids|
      invariant |normalized| == i
      invariant forall k :: 0 <= k < i ==> SafeShortText(ids[k]) == Some(normalized[k])
      invariant seen == set k | 0 <= k < i :: normalized[k]
      invariant repeated <==> !Distinct(normalized)
    {
      var text := SafeShortText(ids[i]);
      if text.None? { return normalized, false; }
      ghost var before := normalized;
      normalized := normalized + [text.value];
      assert forall k :: 0 <= k < i ==> normalized[k] == before[k];
      if text.value in seen {
        ghost var k :| 0 <= k < i && before[k] == text.value;
        assert normalized[k] == normalized[i];
        repeated := true;
      } else if Distinct(before) {
        assert forall k :: 0 <= k < i ==> normalized[k] in seen;
      } else {
        ghost var j, k :| 0 <= j < k < i && before[j] == before[k];
        assert normalized[j] == normalized[k];
      }
      seen := seen + {text.value};
    }
    SameTexts(ids, normalized);
    ok := !repeated;
  }

  lemma SameTexts(s: seq<string>, t: seq<string>)
    requires |s| == |t| && forall k :: 0 <= k < |s| ==> SafeShortText(s[k]) == Some(t[k])
    ensures DistinctTexts(s) <==> Distinct(t)
  {
    if DistinctTexts(s) {
      forall i, j | 0 <= i < j < |t| ensures t[i] != t[j] {
        assert Texts(s)[i] != Texts(s)[j];
      }
    }
    if Distinct(t) {
      forall i, j | 0 <= i < j < |s| ensures Texts(s)[i] != Texts(s)[j] {
        assert t[i] != t[j];
      }
    }
  }

  /** One category's entry, and its contribution to the running sums. */
  method CheckCategory(rd: Rounding, m: CategoryMetric, total: int, sums: Totals) returns (sums': Totals, ok: bool)
    ensures ok <==> CategoryFits(rd, m, total)
    ensures ok ==> sums' == Totals(sums.total + m.total, sums.correct + m.correct, sums.invalid + m.invalid)
  {
    sums' := sums;
    if SafeShortText(m.category).None? { return sums, false; }
    if !(1 <= m.total <= total) || !(0 <= m.correct <= m.total) || !(0 <= m.invalid <= m.total) || m.correct + m.invalid > m.total {
      return sums, false;
    }
    if m.accuracy < 0.0 || m.accuracy > 100.0 { return sums, false; }
    if m.accuracy != rd.four(m.correct as real * 100.0 / m.total as real) { return sums, false; }
    sums' := Totals(sums.total + m.total, sums.correct + m.correct, sums.invalid + m.invalid);
    ok := true;
  }

  method CheckCategories(rd: Rounding, metrics: seq<CategoryMetric>, total: int) returns (sums: Totals, ok: bool)
    ensures ok <==> forall i :: 0 <= i < |metrics| ==> CategoryFits(rd, metrics[i], total)
    ensures ok ==> sums == TotalsOf(metrics)
  {
    sums := Totals(0, 0, 0);
    for i := 0 to |metrics|
      invariant sums == TotalsOf(metrics[..i])
      invariant forall k :: 0 <= k < i ==> CategoryFits(rd, metrics[k], total)
    {
      sums, ok := CheckCategory(rd, metrics[i], total, sums);
      if !ok { return; }
      assert metrics[..i + 1][..i] == metrics[..i];
    }
    assert metrics[..|metrics|] == metrics;
    ok := true;
  }

  method CheckHead(rd: Rounding, r: Report) returns (ok: bool)
    ensures ok <==> HeadFits(rd, r)
  {
    if !IsSha256(r.sha256) || SafeShortText(r.model).None? || (r.template != "base" && r.template != "instruct") { return false; }
    if !(1 <= r.total <= MAX_RECORDS) || !(0 <= r.correct <= r.total) || !(0 <= r.invalid <= r.total) || r.correct + r.invalid > r.total {
      return false;
    }
    if r.accuracy < 0.0 || r.latency < 0.0 || r.accuracy > 100.0 { return false; }
    ok := r.accuracy == rd.four(r.correct as real * 100.0 / r.total as real);
  }

  method MetricSummary(rd: Rounding, r: Report) returns (summary: Option<Report>)
    ensures summary.Some? <==> MetricFits(rd, r)
    ensures summary.Some? ==> summary.value == NormalReport(r)
  {
    var headFits := CheckHead(rd, r);
    if !headFits { return None; }
    if |r.categories| > MAX_CATEGORIES || |r.sampleIds| != r.total { return None; }
    var ids, idsFit := NormalizeIds(r.sampleIds);
    if !idsFit { return None; }
    var names, namesFit := NormalizeIds(Names(r.categories));
    if !namesFit { return None; }
    var sums, categoriesFit := CheckCategories(rd, r.categories, r.total);
    if !categoriesFit || sums != Totals(r.total, r.correct, r.invalid) { return None; }
    var normal := NormalReport(r);
    assert ids == normal.sampleIds;
    summary := Some(normal.(sampleIds := ids));
  }

  method CheckChange(rd: Rounding, x: Change, name: string, b: CategoryMetric, c: CategoryMetric) returns (ok: bool)
    ensures ok <==> ChangeFits(rd, x, name, b, c)
  {
    var text := SafeShortText(x.category);
    if text.None? { return false; }
    ok := text.value == name && x.baseline == b.accuracy && x.candidate == c.accuracy && x.delta == rd.four(c.accuracy - b.accuracy);
  }

  method CheckChanges(
    rd: Rounding, changes: seq<Change>, names: seq<string>, bs: map<string, CategoryMetric>, cs: map<string, CategoryMetric>)
    returns (ok: bool)
    requires forall i :: 0 <= i < |names| ==> names[i] in bs && names[i] in cs
    ensures ok <==> ChangesFit(rd, changes, names, bs, cs)
  {
    if |changes| > MAX_CATEGORIES || bs.Keys != cs.Keys { return false; }
    if exists name <- bs :: bs[name].total != cs[name].total { return false; }
    var paired := if |changes| < |names| then |changes| else |names|;
    for i := 0 to paired
      invariant forall k :: 0 <= k < i ==> ChangeFits(rd, changes[k], names[k], bs[names[k]], cs[names[k]])
    {
      ok := CheckChange(rd, changes[i], names[i], bs[names[i]], cs[names[i]]);
      if !ok { return; }
    }
    ok := |changes| == |names|;
  }

  method CheckComparisonHead(rd: Rounding, x: Comparison, b: Report, c: Report) returns (ok: bool)
    ensures ok <==> ComparisonHeadFits(rd, x, b, c)
  {
    if x.reason.Some? || !IsSha256(x.sha256) { return false; }
    var expectedDelta := rd.four(c.accuracy - b.accuracy);
    var expectedRelative := if b.accuracy != 0.0 then Some(rd.four(expectedDelta * 100.0 / b.accuracy)) else None;
    if x.sha256 != b.sha256 || SafeShortText(x.baselineModel) != Some(b.model) || SafeShortText(x.candidateModel) != Some(c.model) {
      return false;
    }
    ok := x.baseline == b.accuracy && x.candidate == c.accuracy && x.delta == expectedDelta && x.relative == expectedRelative;
  }

  method CheckAllChanges(rd: Rounding, changes: seq<Change>, b: Report, c: Report) returns (ok: bool)
    ensures var (bs, cs) := (ByCategory(b.categories), ByCategory(c.categories));
            ok <==> ChangesFit(rd, changes, SharedNames(bs, cs), bs, cs)
  {
    var bs := IndexByCategory(b.categories);
    var cs := IndexByCategory(c.categories);
    var names := SortedKeys(bs.Keys * cs.Keys);
    assert names == SharedNames(bs, cs);
    ok := CheckChanges(rd, changes, names, bs, cs);
  }

  method ComparisonSummary(rd: Rounding, x: Comparison, b: Report, c: Report) returns (ok: bool)
    ensures ok <==> ComparisonFits(rd, x, b, c)
  {
    ok := CheckComparisonHead(rd, x, b, c);
    if ok {
      ok := CheckAllChanges(rd, x.changes, b, c);
    }
  }

  method CheckLimits(p: Pair, fileSize: nat) returns (within: bool)
    ensures within <==> 1 <= fileSize <= MAX_REPORT_BYTES && Bounded(PairJson(p), 0, 0).Some?
  {
    if !(1 <= fileSize <= MAX_REPORT_BYTES) { return false; }
    within := Bounded(PairJson(p), 0, 0).Some?;
  }

  method CollectMetadata(p: Pair, resultPath: string, manifestPath: string) returns (m: Metadata)
    ensures m == MetadataOf(p, resultPath, manifestPath)
  {
    var (b, c) := (NormalReport(p.baseline), NormalReport(p.candidate));
    var warnings: seq<Warning> := [];
    if b.invalid == b.total { warnings := warnings + [BaselineAllInvalid]; }
    if c.invalid == c.total { warnings := warnings + [CandidateAllInvalid]; }
    m := Metadata(b, c, NormalComparison(p.comparison), resultPath, manifestPath, warnings);
  }

  /** The whole check of a report file; what is returned goes to the control plane. */
  method LoadPairReport(rd: Rounding, p: Pair, fileSize: nat, e: Expected, resultPath: string, manifestPath: string)
    returns (m: Option<Metadata>)
    ensures m.Some? <==> AgentAccepts(rd, p, e, fileSize)
    ensures m.Some? ==> m.value == MetadataOf(p, resultPath, manifestPath)
  {
    var within := CheckLimits(p, fileSize);
    if !within { return None; }
    var fit := CheckReports(rd, p, e);
    if !fit { return None; }
    var metadata := CollectMetadata(p, resultPath, manifestPath);
    m := Some(metadata);
  }

  method CheckReports(rd: Rounding, p: Pair, e: Expected) returns (fit: bool)
    ensures fit <==> ReportsFit(rd, p, e)
  {
    var baseline := MetricSummary(rd, p.baseline);
    var candidate := MetricSummary(rd, p.candidate);
    if baseline.None? || candidate.None? { return false; }
    var (b, c) := (baseline.value, candidate.value);
    if b.model != "baseline" || c.model != "candidate" { return false; }
    if b.template != e.baseTemplate || c.template != e.candidateTemplate { return false; }
    var compared := ComparisonSummary(rd, p.comparison, b, c);
    if !compared { return false; }
    fit := b.sha256 == c.sha256 && b.total == c.total && b.sampleIds == c.sampleIds && b.sha256 == e.sha256 && b.total == e.total;
  }

  // ---- What the two checks ask, in full ----

  /** Three counts of something of which there are `total`: none is negative, and correct and invalid exclude each other. */
  lemma CountsExclude(total: int, correct: int, invalid: int)
    ensures CountsFit(total, correct, invalid) <==> 0 <= correct && 0 <= invalid && correct + invalid <= total
  {
  }

  /** The agent takes a model's report exactly when all of it follows from its counts: a digest, a name and a template of
      the known kinds; 1 to 200,000 answers; every percentage the rounded share of correct ones; as many different ids
      as answers; at most 4,096 different categories of at least one answer each; and category counts that add up. */
  lemma SummariesFollowFromCounts(rd: Rounding, r: Report)
    ensures MetricFits(rd, r) <==>
      && IsSha256(r.sha256) && SafeShortText(r.model).Some? && r.template in {"base", "instruct"}
      && 1 <= r.total <= 200_000 && r.correct >= 0 && r.invalid >= 0 && r.correct + r.invalid <= r.total && r.latency >= 0.0
      && r.accuracy == rd.four(r.correct as real * 100.0 / r.total as real) && 0.0 <= r.accuracy <= 100.0
      && |r.sampleIds| == r.total && DistinctTexts(r.sampleIds)
      && |r.categories| <= 4096 && DistinctTexts(Names(r.categories))
      && (forall m <- r.categories ::
            && 1 <= m.total <= r.total && m.correct >= 0 && m.invalid >= 0 && m.correct + m.invalid <= m.total
            && m.accuracy == rd.four(m.correct as real * 100.0 / m.total as real) && 0.0 <= m.accuracy <= 100.0)
      && TotalsOf(r.categories) == Totals(r.total, r.correct, r.invalid)
  {
    if DistinctTexts(Names(r.categories)) {
      forall i | 0 <= i < |r.categories|
        ensures r.categories[i] in r.categories && SafeShortText(r.categories[i].category).Some?
      {
        assert Names(r.categories)[i] == r.categories[i].category;
      }
    }
  }

  /** Different texts: short, and no two of them the same once the white space around them is gone. */
  lemma TextsAreDistinct(s: seq<string>)
    ensures DistinctTexts(s) <==>
      && (forall i :: 0 <= i < |s| ==> SafeShortText(s[i]).Some?)
      && forall i, j :: 0 <= i < |s| && 0 <= j < |s| && i != j ==> SafeShortText(s[i]) != SafeShortText(s[j])
  {
    if DistinctTexts(s) {
      forall i, j | 0 <= i < j < |s| ensures SafeShortText(s[i]) != SafeShortText(s[j]) {
        assert Texts(s)[i] != Texts(s)[j];
      }
    }
  }

  /** The sums over the categories. */
  lemma TotalsAddUp(metrics: seq<CategoryMetric>, m: CategoryMetric)
    ensures TotalsOf([]) == Totals(0, 0, 0)
    ensures var (t, more) := (TotalsOf(metrics), TotalsOf(metrics + [m]));
            more.total == t.total + m.total && more.correct == t.correct + m.correct && more.invalid == t.invalid + m.invalid
  {
    assert (metrics + [m])[..|metrics|] == metrics;
  }

  /** The head of a comparison says what comparing the two summaries gives, with its names normalised. */
  predicate HeadSaysTheSame(rd: Rounding, x: Comparison, b: Report, c: Report) {
    && x.sha256 == b.sha256 && Normal(x.baselineModel) == b.model && Normal(x.candidateModel) == c.model
    && x.baseline == b.accuracy && x.candidate == c.accuracy && x.delta == rd.four(c.accuracy - b.accuracy)
    && (b.accuracy == 0.0 ==> x.relative == None)
    && (b.accuracy != 0.0 ==> x.relative == Some(rd.four(x.delta * 100.0 / b.accuracy)))
  }

  lemma HeadIsRecomputed(rd: Rounding, x: Comparison, b: Report, c: Report)
    ensures ComparisonHeadFits(rd, x, b, c) <==>
      && x.reason == None && IsSha256(x.sha256) && SafeShortText(x.baselineModel).Some? && SafeShortText(x.candidateModel).Some?
      && HeadSaysTheSame(rd, x, b, c)
  {
  }

  lemma ChangesAreComputed(
    rd: Rounding, changes: seq<Change>, names: seq<string>, bs: map<string, CategoryMetric>, cs: map<string, CategoryMetric>)
    requires forall i :: 0 <= i < |names| ==> names[i] in bs && names[i] in cs
    ensures (&& |changes| == |names|
             && forall i :: 0 <= i < |names| ==> ChangeFits(rd, changes[i], names[i], bs[names[i]], cs[names[i]]))
            <==> (forall x <- changes :: SafeShortText(x.category).Some?) && NormalChanges(changes) == ChangesOf(rd, bs, cs, names)
  {
    var computed := ChangesOf(rd, bs, cs, names);
    if |changes| == |names| && forall i :: 0 <= i < |names| ==> ChangeFits(rd, changes[i], names[i], bs[names[i]], cs[names[i]]) {
      forall i | 0 <= i < |names| ensures NormalChanges(changes)[i] == computed[i] {
        assert ChangeFits(rd, changes[i], names[i], bs[names[i]], cs[names[i]]);
      }
    }
    if (forall x <- changes :: SafeShortText(x.category).Some?) && NormalChanges(changes) == computed {
      assert |NormalChanges(changes)| == |changes|;
      forall i | 0 <= i < |names| ensures ChangeFits(rd, changes[i], names[i], bs[names[i]], cs[names[i]]) {
        assert NormalChanges(changes)[i] == computed[i] && changes[i] in changes;
      }
    }
  }

  lemma ChangesAreRecomputed(
    rd: Rounding, changes: seq<Change>, names: seq<string>, bs: map<string, CategoryMetric>, cs: map<string, CategoryMetric>)
    requires forall i :: 0 <= i < |names| ==> names[i] in bs && names[i] in cs
    ensures ChangesFit(rd, changes, names, bs, cs) <==>
      && |changes| <= 4096 && bs.Keys == cs.Keys && (forall name <- bs :: bs[name].total == cs[name].total)
      && (forall x <- changes :: SafeShortText(x.category).Some?) && NormalChanges(changes) == ChangesOf(rd, bs, cs, names)
  {
    ChangesAreComputed(rd, changes, names, bs, cs);
  }

  /** The agent takes a comparison of two summaries exactly when it gives no reason against itself, its names are short
      texts, the two have the same categories with the same numbers of answers, and it says what comparing the two
      summaries gives: nothing in it is taken on trust. */
  lemma ComparisonsAreRecomputed(rd: Rounding, x: Comparison, b: Report, c: Report)
    ensures var (bs, cs) := (ByCategory(b.categories), ByCategory(c.categories));
            ComparisonFits(rd, x, b, c) <==>
              && x.reason == None && IsSha256(x.sha256) && |x.changes| <= 4096
              && SafeShortText(x.baselineModel).Some? && SafeShortText(x.candidateModel).Some?
              && (forall change <- x.changes :: SafeShortText(change.category).Some?)
              && bs.Keys == cs.Keys && (forall name <- bs :: bs[name].total == cs[name].total)
              && HeadSaysTheSame(rd, x, b, c) && NormalChanges(x.changes) == Compare(rd, b, c).changes
  {
    var (bs, cs) := (ByCategory(b.categories), ByCategory(c.categories));
    HeadIsRecomputed(rd, x, b, c);
    ChangesAreRecomputed(rd, x.changes, SharedNames(bs, cs), bs, cs);
  }

  /** The agent takes a pair for a run exactly when it takes both reports and their comparison, under the fixed names,
      the templates it started, the same samples, and the digest and number of records it scheduled. */
  lemma PairsAreOfTheRun(rd: Rounding, p: Pair, e: Expected)
    ensures var (b, c) := (NormalReport(p.baseline), NormalReport(p.candidate));
            ReportsFit(rd, p, e) <==>
              && MetricFits(rd, p.baseline) && MetricFits(rd, p.candidate) && ComparisonFits(rd, p.comparison, b, c)
              && b.model == "baseline" && c.model == "candidate"
              && p.baseline.template == e.baseTemplate && p.candidate.template == e.candidateTemplate
              && p.baseline.sha256 == e.sha256 && p.candidate.sha256 == e.sha256
              && p.baseline.total == e.total && p.candidate.total == e.total && b.sampleIds == c.sampleIds
  {
  }

  /** What goes to the control plane: both summaries and the comparison with normalised names and otherwise unchanged,
      and a warning for each model of whose answers none was valid. */
  lemma MetadataIsNormalised(p: Pair, resultPath: string, manifestPath: string, i: nat)
    ensures var m := MetadataOf(p, resultPath, manifestPath);
            && m.resultPath == resultPath && m.manifestPath == manifestPath
            && m.baseline.(model := "", categories := [], sampleIds := []) == p.baseline.(model := "", categories := [], sampleIds := [])
            && m.candidate.(model := "", categories := [], sampleIds := []) == p.candidate.(model := "", categories := [], sampleIds := [])
            && m.comparison.(baselineModel := "", candidateModel := "", changes := [])
               == p.comparison.(baselineModel := "", candidateModel := "", changes := [])
            && (SafeShortText(p.baseline.model).Some? ==> m.baseline.model == SafeShortText(p.baseline.model).value)
            && |m.baseline.sampleIds| == |p.baseline.sampleIds| && |m.baseline.categories| == |p.baseline.categories|
            && (i < |p.baseline.sampleIds| && SafeShortText(p.baseline.sampleIds[i]).Some? ==>
                  m.baseline.sampleIds[i] == SafeShortText(p.baseline.sampleIds[i]).value)
            && (i < |p.baseline.categories| && SafeShortText(p.baseline.categories[i].category).Some? ==>
                  m.baseline.categories[i]
                  == p.baseline.categories[i].(category := SafeShortText(p.baseline.categories[i].category).value))
            && (BaselineAllInvalid in m.warnings <==> p.baseline.invalid == p.baseline.total)
            && (CandidateAllInvalid in m.warnings <==> p.candidate.invalid == p.candidate.total)
  {
  }

  /** The control plane takes a summary exactly when its own validators pass: lengths, ranges, counts that exclude each
      other and add up over different categories, and percentages within a ten-thousandth of their counts. */
  lemma SummariesAreValidated(rd: Rounding, r: Report)
    ensures SummaryModel(rd, r) <==>
      && IsSha256(r.sha256) && 1 <= |r.model| <= 256 && r.template in {"base", "instruct"}
      && 1 <= r.total <= 200_000 && r.correct >= 0 && r.invalid >= 0 && r.correct + r.invalid <= r.total
      && 0.0 <= r.accuracy <= 100.0 && r.latency >= 0.0 && 1 <= |r.categories| <= 4096
      && -0.0001 <= r.accuracy - rd.four(r.correct as real * 100.0 / r.total as real) <= 0.0001
      && (forall m <- r.categories ::
            && 1 <= |m.category| <= 256 && 1 <= m.total <= 200_000
            && m.correct >= 0 && m.invalid >= 0 && m.correct + m.invalid <= m.total && 0.0 <= m.accuracy <= 100.0
            && -0.0001 <= m.accuracy - rd.four(m.correct as real * 100.0 / m.total as real) <= 0.0001)
      && (forall i, j :: 0 <= i < j < |r.categories| ==> r.categories[i].category != r.categories[j].category)
      && TotalsOf(r.categories) == Totals(r.total, r.correct, r.invalid)
  {
    forall i | 0 <= i < |r.categories| ensures r.categories[i] in r.categories && Names(r.categories)[i] == r.categories[i].category {}
  }

  /** And a comparison exactly when its numbers are in range, its changes are what its percentages say within a
      ten-thousandth, and it names 1 to 4,096 different categories. */
  lemma ComparisonsAreValidated(rd: Rounding, x: Comparison)
    ensures ComparisonHeadModel(rd, x) <==>
      && IsSha256(x.sha256) && 1 <= |x.baselineModel| <= 256 && 1 <= |x.candidateModel| <= 256 && x.reason == None
      && 0.0 <= x.baseline <= 100.0 && 0.0 <= x.candidate <= 100.0 && -100.0 <= x.delta <= 100.0
      && -0.0001 <= x.delta - rd.four(x.candidate - x.baseline) <= 0.0001
      && (x.baseline == 0.0 ==> x.relative == None)
      && (x.baseline != 0.0 ==>
            && x.relative.Some?
            && -0.0001 <= x.relative.value - rd.four(rd.four(x.candidate - x.baseline) * 100.0 / x.baseline) <= 0.0001)
    ensures ChangesModel(rd, x.changes) <==>
      && 1 <= |x.changes| <= 4096
      && (forall i, j :: 0 <= i < j < |x.changes| ==> x.changes[i].category != x.changes[j].category)
      && forall change <- x.changes ::
           && 1 <= |change.category| <= 256 && 0.0 <= change.baseline <= 100.0 && 0.0 <= change.candidate <= 100.0
           && -100.0 <= change.delta <= 100.0 && -0.0001 <= change.delta - rd.four(change.candidate - change.baseline) <= 0.0001
  {
    forall i | 0 <= i < |x.changes| ensures x.changes[i] in x.changes {}
  }

  /** The changes name exactly the categories that both summaries have, and quote their percentages. */
  lemma ChangesAreQuoted(changes: seq<Change>, bs: map<string, CategoryMetric>, cs: map<string, CategoryMetric>)
    ensures ChangesQuote(changes, bs, cs) <==>
      && (forall name :: name in bs <==> name in cs)
      && (forall name :: name in bs <==> exists change <- changes :: change.category == name)
      && forall change <- changes ::
           && change.category in bs && change.category in cs
           && change.baseline == bs[change.category].accuracy && change.candidate == cs[change.category].accuracy
  {
    forall i | 0 <= i < |changes| ensures changes[i] in changes {}
    forall name ensures name in ChangedNames(changes) <==> exists change <- changes :: change.category == name {
      if change :| change in changes && change.category == name {
        var i :| 0 <= i < |changes| && changes[i] == change;
      }
    }
  }

  /** And the whole exactly when the parts pass and say the same of the same run. */
  lemma MetadataIsValidated(rd: Rounding, m: Metadata)
    ensures ControlAccepts(rd, m) <==>
      && SummaryModel(rd, m.baseline) && SummaryModel(rd, m.candidate)
      && ComparisonHeadModel(rd, m.comparison) && ChangesModel(rd, m.comparison.changes)
      && ChangesQuote(m.comparison.changes, ByCategory(m.baseline.categories), ByCategory(m.candidate.categories))
      && m.baseline.model == "baseline" && m.candidate.model == "candidate"
      && m.comparison.baselineModel == "baseline" && m.comparison.candidateModel == "candidate"
      && m.baseline.sha256 == m.candidate.sha256 == m.comparison.sha256 && m.baseline.total == m.candidate.total
      && m.comparison.baseline == m.baseline.accuracy && m.comparison.candidate == m.candidate.accuracy
      && 1 <= |m.resultPath| <= 1024 && 1 <= |m.manifestPath| <= 1024 && |m.warnings| <= 2
      && (BaselineAllInvalid in m.warnings <==> m.baseline.invalid == m.baseline.total)
      && (CandidateAllInvalid in m.warnings <==> m.candidate.invalid == m.candidate.total)
  {
  }

  // ---- What is found under which name ----

  function Keys(members: seq<Member>): seq<string> {
    seq(|members|, i requires 0 <= i < |members| => members[i].key)
  }

  /** The report file as the runner names things. */
  lemma ReportsAreWritten(r: Report)
    ensures var members := ReportJson(r).members;
            && Keys(members) == ["dataset_sha256", "model_name", "template", "total", "correct", "invalid", "accuracy_percent",
                                 "average_latency_ms", "categories", "sample_ids"]
            && members[0].value == Str(r.sha256) && members[1].value == Str(r.model) && members[2].value == Str(r.template)
            && members[3].value == Leaf(Int(r.total)) && members[4].value == Leaf(Int(r.correct))
            && members[5].value == Leaf(Int(r.invalid)) && members[6].value == Leaf(Float(r.accuracy))
            && members[7].value == Leaf(Float(r.latency))
            && members[8].value.List? && |members[8].value.items| == |r.categories|
            && members[9].value.List? && |members[9].value.items| == |r.sampleIds|
            && (forall i :: 0 <= i < |r.categories| ==> members[8].value.items[i] == MetricJson(r.categories[i]))
            && (forall i :: 0 <= i < |r.sampleIds| ==> members[9].value.items[i] == Str(r.sampleIds[i]))
  {
  }

  lemma CategoriesAreWritten(m: CategoryMetric, c: Change)
    ensures var members := MetricJson(m).members;
            && Keys(members) == ["category", "total", "correct", "invalid", "accuracy_percent"]
            && members[0].value == Str(m.category) && members[1].value == Leaf(Int(m.total)) && members[2].value == Leaf(Int(m.correct))
            && members[3].value == Leaf(Int(m.invalid)) && members[4].value == Leaf(Float(m.accuracy))
    ensures var members := ChangeJson(c).members;
            && Keys(members) == ["category", "baseline_percent", "candidate_percent", "percentage_point_change"]
            && members[0].value == Str(c.category) && members[1].value == Leaf(Float(c.baseline))
            && members[2].value == Leaf(Float(c.candidate)) && members[3].value == Leaf(Float(c.delta))
  {
  }

  lemma ComparisonsAreWritten(x: Comparison)
    ensures var members := ComparisonJson(x).members;
            && Keys(members) == ["dataset_sha256", "baseline_model", "candidate_model", "baseline_percent", "candidate_percent",
                                 "percentage_point_change", "relative_change_percent", "comparable", "reason", "category_changes"]
            && members[0].value == Str(x.sha256) && members[1].value == Str(x.baselineModel) && members[2].value == Str(x.candidateModel)
            && members[3].value == Leaf(Float(x.baseline)) && members[4].value == Leaf(Float(x.candidate))
            && members[5].value == Leaf(Float(x.delta))
            && (x.relative == None ==> members[6].value == Leaf(Null))
            && (x.relative.Some? ==> members[6].value == Leaf(Float(x.relative.value)))
            && members[7].value == Leaf(Bool(x.reason == None))
            && (x.reason == None ==> members[8].value == Leaf(Null)) && (x.reason.Some? ==> members[8].value == Str(x.reason.value))
            && members[9].value.List? && |members[9].value.items| == |x.changes|
            && forall i :: 0 <= i < |x.changes| ==> members[9].value.items[i] == ChangeJson(x.changes[i])
  {
  }

  lemma PairsAreWritten(p: Pair)
    ensures var members := PairJson(p).members;
            && Keys(members) == ["baseline", "candidate", "comparison"]
            && members[0].value == ReportJson(p.baseline) && members[1].value == ReportJson(p.candidate)
            && members[2].value == ComparisonJson(p.comparison)
  {
  }

  /** A report file may have 1 byte to 128 MiB, whatever is in it. */
  lemma ReportFilesAreMeasured(rd: Rounding, p: Pair, e: Expected, fileSize: nat, other: nat)
    ensures AgentAccepts(rd, p, e, fileSize) ==> 1 <= fileSize <= 134_217_728
    ensures AgentAccepts(rd, p, e, fileSize) && 1 <= other <= 134_217_728 ==> AgentAccepts(rd, p, e, other)
  {
  }

  /** And at most 600,000 values, 32 levels deep. */
  lemma TreesAreBounded(t: Tree)
    ensures Bounded(t, 0, 0).Some? <==> Nodes(t) <= 600_000 && Shallow(t, 32)
  {
    BoundedDecides(t, 0, 0);
  }

  /** Texts of at most 8,192 characters and names of at most 256 at any level, and parts one level less deep. */
  lemma TreesAreShallow(t: Tree, key: string, depth: int)
    ensures Shallow(t, -1) == false
    ensures t.Leaf? ==> (Shallow(t, depth) <==> depth >= 0)
    ensures t.Str? ==> (Shallow(t, depth) <==> depth >= 0 && |t.text| <= 8192)
    ensures Shallow(List([t]), depth) <==> depth >= 0 && Shallow(t, depth - 1)
    ensures Shallow(Obj([Member(key, t)]), depth) <==> depth >= 0 && |key| <= 256 && Shallow(t, depth - 1)
  {
    assert List([t]).items[0] == t && Obj([Member(key, t)]).members[0] == Member(key, t);
  }
}
