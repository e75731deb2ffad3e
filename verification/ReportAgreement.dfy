/** What the runner produces passes the agent's check, and what passes the agent's check passes the control
    plane's. */
module ReportAgreement {
  import opened Contract
  import opened EvaluationReport
  import opened JsonText
  import opened ReportChecks
  import opened ReportSize
  import Sorting

  // ---- The agent's check is at least as strict as the control plane's ----

  lemma {:induction false} NormalKeepsTotals(metrics: seq<CategoryMetric>)
    ensures TotalsOf(NormalMetrics(metrics)) == TotalsOf(metrics)
  {
    if metrics != [] {
      NormalKeepsTotals(metrics[..|metrics| - 1]);
      assert NormalMetrics(metrics)[..|metrics| - 1] == NormalMetrics(metrics[..|metrics| - 1]);
    }
  }

  lemma DistinctAfterNormal(metrics: seq<CategoryMetric>)
    requires DistinctTexts(Names(metrics))
    ensures Distinct(Names(NormalMetrics(metrics)))
  {
    var names := Names(metrics);
    forall i, j | 0 <= i < j < |metrics|
      ensures Names(NormalMetrics(metrics))[i] != Names(NormalMetrics(metrics))[j]
    {
      assert SafeShortText(names[i]).Some? && SafeShortText(names[j]).Some?;
      assert Texts(names)[i] != Texts(names)[j];
    }
  }

  lemma SummaryPasses(rd: Rounding, r: Report)
    requires MetricFits(rd, r)
    ensures SummaryModel(rd, NormalReport(r))
  {
    NormalKeepsTotals(r.categories);
    DistinctAfterNormal(r.categories);
    var n := NormalReport(r);
    forall i | 0 <= i < |n.categories| ensures CategoryModel(rd, n.categories[i]) {
      assert CategoryFits(rd, r.categories[i], r.total);
    }
    assert r.categories != [];
  }

  lemma NormalTextsAreStable(s: seq<string>, n: seq<string>)
    requires DistinctTexts(s) && |n| == |s| && forall i :: 0 <= i < |s| ==> n[i] == Normal(s[i])
    ensures DistinctTexts(n) && forall i :: 0 <= i < |n| ==> EvaluationReport.Plain(n[i])
  {
    forall i | 0 <= i < |n| ensures EvaluationReport.Plain(n[i]) {
      SafeTextIsPlain(s[i]);
    }
    forall i, j | 0 <= i < j < |n| ensures Texts(n)[i] != Texts(n)[j] {
      assert SafeShortText(s[i]).Some? && SafeShortText(s[j]).Some?;
      assert Texts(s)[i] != Texts(s)[j];
    }
  }

  /** What the agent's check returns passes the check again, unchanged: nothing is left to normalise. */
  lemma NormalReportIsStable(rd: Rounding, r: Report)
    requires MetricFits(rd, r)
    ensures MetricFits(rd, NormalReport(r)) && NormalReport(NormalReport(r)) == NormalReport(r)
  {
    var n := NormalReport(r);
    SafeTextIsPlain(r.model);
    NormalTextsAreStable(r.sampleIds, n.sampleIds);
    NormalTextsAreStable(Names(r.categories), Names(n.categories));
    NormalKeepsTotals(r.categories);
    forall i | 0 <= i < |n.categories| ensures CategoryFits(rd, n.categories[i], n.total) && EvaluationReport.Plain(n.categories[i].category) {
      assert CategoryFits(rd, r.categories[i], r.total);
      assert Names(n.categories)[i] == n.categories[i].category;
    }
    PlainReportIsNormal(n);
  }

  /** An indexed metric is one of the list. */
  lemma {:induction false} IndexedIsListed(metrics: seq<CategoryMetric>, name: string) returns (i: nat)
    requires name in ByCategory(metrics)
    ensures i < |metrics| && metrics[i] == ByCategory(metrics)[name] && metrics[i].category == name
  {
    if metrics[|metrics| - 1].category == name {
      i := |metrics| - 1;
    } else {
      i := IndexedIsListed(metrics[..|metrics| - 1], name);
    }
  }

  lemma AccuracyInRange(rd: Rounding, r: Report, name: string)
    requires SummaryModel(rd, r) && name in ByCategory(r.categories)
    ensures 0.0 <= ByCategory(r.categories)[name].accuracy <= 100.0 && ShortName(name)
  {
    var i := IndexedIsListed(r.categories, name);
    assert CategoryModel(rd, r.categories[i]);
  }

  lemma SharedNamesFacts(bs: map<string, CategoryMetric>, cs: map<string, CategoryMetric>)
    ensures var names := SharedNames(bs, cs);
            Distinct(names) && |names| == |bs.Keys * cs.Keys| && forall x :: x in names <==> x in bs && x in cs
  {
    SortedSetFacts(bs.Keys * cs.Keys);
  }

  lemma ChangePasses(rd: Rounding, x: Change, name: string, b: CategoryMetric, c: CategoryMetric)
    requires Sane(rd) && ChangeFits(rd, x, name, b, c) && 0.0 <= b.accuracy <= 100.0 && 0.0 <= c.accuracy <= 100.0
    ensures ChangeModel(rd, x.(category := Normal(x.category))) && Normal(x.category) == name
  {
  }

  predicate InRange(metrics: map<string, CategoryMetric>) {
    forall name <- metrics :: 0.0 <= metrics[name].accuracy <= 100.0 && ShortName(name)
  }

  lemma ChangesPass(rd: Rounding, changes: seq<Change>, names: seq<string>, bs: map<string, CategoryMetric>, cs: map<string, CategoryMetric>)
    requires Sane(rd) && ChangesFit(rd, changes, names, bs, cs) && InRange(bs) && InRange(cs)
    requires names != [] && Distinct(names) && forall x :: x in names <==> x in bs
    ensures ChangesModel(rd, NormalChanges(changes)) && ChangesQuote(NormalChanges(changes), bs, cs)
  {
    var n := NormalChanges(changes);
    forall i | 0 <= i < |n| ensures ChangeModel(rd, n[i]) && n[i].category == names[i] {
      ChangePasses(rd, changes[i], names[i], bs[names[i]], cs[names[i]]);
    }
    ChangedExactly(n, names, bs.Keys);
  }

  lemma HeadPasses(rd: Rounding, x: Comparison, b: Report, c: Report)
    requires Sane(rd) && ComparisonHeadFits(rd, x, b, c) && SummaryModel(rd, b) && SummaryModel(rd, c)
    ensures ComparisonHeadModel(rd, NormalComparison(x))
  {
  }

  lemma ComparisonPasses(rd: Rounding, x: Comparison, b: Report, c: Report)
    requires Sane(rd) && ComparisonFits(rd, x, b, c) && SummaryModel(rd, b) && SummaryModel(rd, c)
    ensures ComparisonHeadModel(rd, NormalComparison(x)) && ChangesModel(rd, NormalChanges(x.changes))
    ensures ChangesQuote(NormalChanges(x.changes), ByCategory(b.categories), ByCategory(c.categories))
  {
    HeadPasses(rd, x, b, c);
    ComparedChangesPass(rd, x.changes, b, c);
  }

  lemma ComparedChangesPass(rd: Rounding, changes: seq<Change>, b: Report, c: Report)
    requires Sane(rd) && SummaryModel(rd, b) && SummaryModel(rd, c)
    requires var (bs, cs) := (ByCategory(b.categories), ByCategory(c.categories));
             ChangesFit(rd, changes, SharedNames(bs, cs), bs, cs)
    ensures ChangesModel(rd, NormalChanges(changes))
    ensures ChangesQuote(NormalChanges(changes), ByCategory(b.categories), ByCategory(c.categories))
  {
    var (bs, cs) := (ByCategory(b.categories), ByCategory(c.categories));
    forall name <- bs ensures 0.0 <= bs[name].accuracy <= 100.0 && ShortName(name) {
      AccuracyInRange(rd, b, name);
    }
    forall name <- cs ensures 0.0 <= cs[name].accuracy <= 100.0 && ShortName(name) {
      AccuracyInRange(rd, c, name);
    }
    SharedNamesFacts(bs, cs);
    assert bs.Keys * cs.Keys == bs.Keys;
    ListedNotEmpty(b.categories);
    ChangesPass(rd, changes, SharedNames(bs, cs), bs, cs);
  }

  lemma ChangedExactly(changes: seq<Change>, names: seq<string>, keys: set<string>)
    requires |changes| == |names| && forall i :: 0 <= i < |names| ==> changes[i].category == names[i]
    requires forall x :: x in names <==> x in keys
    ensures ChangedNames(changes) == keys
  {
    forall x ensures x in ChangedNames(changes) <==> x in keys {
      if x in keys {
        assert x in names;
        var i :| 0 <= i < |names| && names[i] == x;
        assert changes[i].category in ChangedNames(changes);
      }
      if x in ChangedNames(changes) {
        var i :| 0 <= i < |changes| && changes[i].category == x;
        assert names[i] in names;
      }
    }
  }

  lemma ListedNotEmpty(metrics: seq<CategoryMetric>)
    requires metrics != []
    ensures |ByCategory(metrics).Keys| >= 1
  {
    assert metrics[|metrics| - 1].category in ByCategory(metrics).Keys;
    assert ByCategory(metrics).Keys != {};
  }

  lemma FittingReportsPass(rd: Rounding, p: Pair, e: Expected, b: Report, c: Report)
    requires Sane(rd) && ReportsFit(rd, p, e) && b == NormalReport(p.baseline) && c == NormalReport(p.candidate)
    ensures SummaryModel(rd, b) && SummaryModel(rd, c) && ComparisonFits(rd, p.comparison, b, c)
    ensures b.sha256 == c.sha256 && b.total == c.total && b.model == "baseline" && c.model == "candidate"
  {
    SummaryPasses(rd, p.baseline);
    SummaryPasses(rd, p.candidate);
  }

  lemma PartsPass(rd: Rounding, b: Report, c: Report, x: Comparison, resultPath: string, manifestPath: string)
    requires Sane(rd) && SummaryModel(rd, b) && SummaryModel(rd, c) && ComparisonFits(rd, x, b, c)
    requires b.sha256 == c.sha256 && b.total == c.total && b.model == "baseline" && c.model == "candidate"
    requires 1 <= |resultPath| <= 1024 && 1 <= |manifestPath| <= 1024
    ensures ControlAccepts(rd, Metadata(b, c, NormalComparison(x), resultPath, manifestPath, WarningsOf(b, c)))
  {
    ComparisonPasses(rd, x, b, c);
    NamesStay(rd, x, b, c);
    WarningsAreExact(b, c);
  }

  lemma WarningsAreExact(b: Report, c: Report)
    ensures BaselineAllInvalid in WarningsOf(b, c) <==> b.invalid == b.total
    ensures CandidateAllInvalid in WarningsOf(b, c) <==> c.invalid == c.total
    ensures |WarningsOf(b, c)| <= 2
  {
  }

  /** Every report the agent accepts is accepted by the control plane. */
  lemma AgentImpliesControl(rd: Rounding, p: Pair, e: Expected, fileSize: nat, resultPath: string, manifestPath: string)
    requires Sane(rd) && AgentAccepts(rd, p, e, fileSize)
    requires 1 <= |resultPath| <= 1024 && 1 <= |manifestPath| <= 1024
    ensures ControlAccepts(rd, MetadataOf(p, resultPath, manifestPath))
  {
    var (b, c) := (NormalReport(p.baseline), NormalReport(p.candidate));
    FittingReportsPass(rd, p, e, b, c);
    PartsPass(rd, b, c, p.comparison, resultPath, manifestPath);
  }

  lemma NamesStay(rd: Rounding, x: Comparison, b: Report, c: Report)
    requires ComparisonHeadFits(rd, x, b, c)
    ensures NormalComparison(x).baselineModel == b.model && NormalComparison(x).candidateModel == c.model
  {
  }

  // ---- What the runner produces is accepted ----

  /** The scores of one model over the samples of an accepted data set. */
  predicate ScoresFit(scores: seq<Score>) {
    && 1 <= |scores| <= MAX_RECORDS && ScoresSound(scores)
    && (forall i, j :: 0 <= i < j < |scores| ==> scores[i].id != scores[j].id)
    && (forall i :: 0 <= i < |scores| ==> EvaluationReport.Plain(scores[i].id) && EvaluationReport.Plain(scores[i].category))
    && |CategoriesOf(scores)| <= MAX_CATEGORIES
  }

  lemma FactorIsNotPositive(p: real, y: real)
    requires y > 0.0 && p * y <= 0.0
    ensures p <= 0.0
  {
  }

  lemma QuotientInRange(a: real, y: real)
    requires y > 0.0 && 0.0 <= a <= 100.0 * y
    ensures 0.0 <= a / y <= 100.0
  {
    var q := a / y;
    assert q * y == a;
    assert (-q) * y == -a && (q - 100.0) * y == a - 100.0 * y;
    FactorIsNotPositive(-q, y);
    FactorIsNotPositive(q - 100.0, y);
  }

  lemma PercentInRange(rd: Rounding, n: int, d: int)
    requires Sane(rd) && 0 <= n <= d
    ensures 0.0 <= Percent(rd, n, d) <= 100.0
  {
    if d != 0 {
      QuotientInRange(n as real * 100.0, d as real);
    }
  }

  lemma {:induction false} TotalsAreSums(rd: Rounding, scores: seq<Score>, names: seq<string>)
    ensures TotalsOf(MetricsOf(rd, scores, names))
         == Totals(SumOver(names, scores, Any), SumOver(names, scores, IsCorrect), SumOver(names, scores, IsInvalid))
  {
    if names != [] {
      var init := names[..|names| - 1];
      TotalsAreSums(rd, scores, init);
      assert MetricsOf(rd, scores, names)[..|names| - 1] == MetricsOf(rd, scores, init);
    }
  }

  lemma PlainTextsDistinct(s: seq<string>)
    requires Distinct(s) && forall i :: 0 <= i < |s| ==> EvaluationReport.Plain(s[i])
    ensures DistinctTexts(s)
  {
    forall i, j | 0 <= i < j < |s| ensures Texts(s)[i] != Texts(s)[j] {
      assert s[i] != s[j];
    }
  }

  lemma NamesArePlain(scores: seq<Score>, names: seq<string>)
    requires ScoresFit(scores) && names == SortedSet(CategoriesOf(scores))
    ensures |names| == |CategoriesOf(scores)| && Distinct(names) && (forall x :: x in names <==> x in CategoriesOf(scores))
    ensures forall i :: 0 <= i < |names| ==> EvaluationReport.Plain(names[i]) && names[i] in CategoriesOf(scores)
  {
    SortedSetFacts(CategoriesOf(scores));
    forall i | 0 <= i < |names| ensures EvaluationReport.Plain(names[i]) && names[i] in CategoriesOf(scores) {
      assert names[i] in names;
    }
  }

  lemma CategoriesFit(rd: Rounding, scores: seq<Score>, names: seq<string>)
    requires Sane(rd) && ScoresFit(scores) && Distinct(names)
    requires forall i :: 0 <= i < |names| ==> EvaluationReport.Plain(names[i]) && names[i] in CategoriesOf(scores)
    ensures var metrics := MetricsOf(rd, scores, names);
            && (forall i :: 0 <= i < |metrics| ==> CategoryFits(rd, metrics[i], |scores|))
            && Names(metrics) == names && DistinctTexts(Names(metrics))
  {
    forall i | 0 <= i < |names| ensures CategoryFits(rd, MetricOf(rd, scores, names[i]), |scores|) {
      CountsAreSound(scores, names[i]);
      PercentInRange(rd, CountIn(scores, IsCorrect, names[i]), CountIn(scores, Any, names[i]));
    }
    PlainTextsDistinct(names);
    assert Names(MetricsOf(rd, scores, names)) == names;
  }

  lemma SortedIdsFit(scores: seq<Score>)
    requires ScoresFit(scores)
    ensures var ids := Sorted(IdsOf(scores));
            |ids| == |scores| && Distinct(ids) && forall i :: 0 <= i < |ids| ==> EvaluationReport.Plain(ids[i])
  {
    var (raw, ids) := (IdsOf(scores), Sorted(IdsOf(scores)));
    LexIsTotalOrder();
    Sorting.SortedIsOrdered(LexAtMost, raw);
    assert |ids| == |multiset(ids)| == |multiset(raw)| == |raw|;
    forall i | 0 <= i < |ids| ensures EvaluationReport.Plain(ids[i]) {
      assert ids[i] in multiset(ids);
      assert ids[i] in raw;
    }
    RearrangedStaysDistinct(raw, ids);
  }

  lemma RearrangedStaysDistinct(a: seq<string>, b: seq<string>)
    requires Distinct(a) && multiset(a) == multiset(b)
    ensures Distinct(b)
  {
    forall i, j | 0 <= i < j < |b| ensures b[i] != b[j] {
      assert b == b[..i] + [b[i]] + b[i + 1..j] + [b[j]] + b[j + 1..];
      AtMostOnce(a, b[i]);
    }
  }

  lemma {:induction false} AtMostOnce(a: seq<string>, x: string)
    requires Distinct(a)
    ensures multiset(a)[x] <= 1
  {
    if a != [] {
      AtMostOnce(a[..|a| - 1], x);
      assert a == a[..|a| - 1] + [a[|a| - 1]];
      if a[|a| - 1] == x {
        assert x !in a[..|a| - 1];
      }
    }
  }

  lemma ProducedHeadFits(rd: Rounding, scores: seq<Score>, sha256: string, model: string, template: string)
    requires Sane(rd) && ScoresFit(scores) && IsSha256(sha256) && EvaluationReport.Plain(model)
    requires IsTemplate(template)
    ensures HeadFits(rd, Aggregate(rd, scores, sha256, model, template))
  {
    CountsAreSound(scores, "");
    PercentInRange(rd, CountAll(scores, IsCorrect), |scores|);
    assert Latency(scores) / |scores| as real >= 0.0;
  }

  lemma ProducedTotals(rd: Rounding, scores: seq<Score>, names: seq<string>)
    requires Distinct(names) && forall x :: x in names <==> x in CategoriesOf(scores)
    ensures TotalsOf(MetricsOf(rd, scores, names)) == Totals(|scores|, CountAll(scores, IsCorrect), CountAll(scores, IsInvalid))
  {
    TotalsAreSums(rd, scores, names);
    CategoriesSumUp(names, scores, Any);
    CategoriesSumUp(names, scores, IsCorrect);
    CategoriesSumUp(names, scores, IsInvalid);
    AnyIsAll(scores);
  }

  lemma ProducedReportFits(rd: Rounding, scores: seq<Score>, r: Report)
    requires Sane(rd) && ScoresFit(scores) && IsSha256(r.sha256) && EvaluationReport.Plain(r.model)
    requires IsTemplate(r.template)
    requires r == Aggregate(rd, scores, r.sha256, r.model, r.template)
    ensures MetricFits(rd, r) && |r.categories| == |CategoriesOf(scores)| && |r.sampleIds| == |scores| == r.total
  {
    var names := SortedSet(CategoriesOf(scores));
    ProducedHeadFits(rd, scores, r.sha256, r.model, r.template);
    NamesArePlain(scores, names);
    CategoriesFit(rd, scores, names);
    ProducedTotals(rd, scores, names);
    SortedIdsFit(scores);
    PlainTextsDistinct(r.sampleIds);
    assert r.categories == MetricsOf(rd, scores, names);
  }

  /** A report made of plain names is its own normal form. */
  lemma PlainReportIsNormal(r: Report)
    requires EvaluationReport.Plain(r.model)
    requires forall i :: 0 <= i < |r.categories| ==> EvaluationReport.Plain(r.categories[i].category)
    requires forall i :: 0 <= i < |r.sampleIds| ==> EvaluationReport.Plain(r.sampleIds[i])
    ensures NormalReport(r) == r
  {
    assert NormalMetrics(r.categories) == r.categories;
    assert NormalReport(r).sampleIds == r.sampleIds;
  }

  lemma ProducedReportIsNormal(rd: Rounding, scores: seq<Score>, sha256: string, model: string, template: string)
    requires ScoresFit(scores) && EvaluationReport.Plain(model)
    ensures var r := Aggregate(rd, scores, sha256, model, template); NormalReport(r) == r
  {
    NamesArePlain(scores, SortedSet(CategoriesOf(scores)));
    SortedIdsFit(scores);
    PlainReportIsNormal(Aggregate(rd, scores, sha256, model, template));
  }

  /** Indexing measured categories finds each of them under its name. */
  lemma {:induction false} IndexedMetrics(rd: Rounding, scores: seq<Score>, names: seq<string>, x: string)
    ensures x in ByCategory(MetricsOf(rd, scores, names)) <==> x in names
    ensures x in names ==> ByCategory(MetricsOf(rd, scores, names))[x] == MetricOf(rd, scores, x)
  {
    if names != [] {
      var init := names[..|names| - 1];
      IndexedMetrics(rd, scores, init, x);
      assert MetricsOf(rd, scores, names)[..|names| - 1] == MetricsOf(rd, scores, init);
      assert names == init + [names[|names| - 1]];
    }
  }

  lemma SameCategories(a: seq<Score>, b: seq<Score>, x: string)
    requires ScoresSound(a) && ScoresSound(b) && multiset(KeysOf(a)) == multiset(KeysOf(b))
    ensures x in CategoriesOf(a) <==> x in CategoriesOf(b)
  {
    SameSamples(a, b, x);
    CountsAreSound(a, x);
    CountsAreSound(b, x);
    if x !in CategoriesOf(a) { NoneInAbsentCategory(a, Any, x); }
    if x !in CategoriesOf(b) { NoneInAbsentCategory(b, Any, x); }
  }

  lemma ComparedChangesFit(
    rd: Rounding, bs: map<string, CategoryMetric>, cs: map<string, CategoryMetric>, names: seq<string>)
    requires bs.Keys == cs.Keys && (forall name <- bs :: bs[name].total == cs[name].total)
    requires forall i :: 0 <= i < |names| ==> names[i] in bs && EvaluationReport.Plain(names[i])
    requires |names| <= MAX_CATEGORIES
    ensures ChangesFit(rd, ChangesOf(rd, bs, cs, names), names, bs, cs)
  {
  }

  lemma IndexedReport(rd: Rounding, scores: seq<Score>, sha256: string, model: string, template: string)
    requires ScoresFit(scores)
    ensures var bs := ByCategory(Aggregate(rd, scores, sha256, model, template).categories);
            bs.Keys == CategoriesOf(scores) && forall x <- bs :: bs[x].total == CountIn(scores, Any, x) && EvaluationReport.Plain(x)
  {
    var names := SortedSet(CategoriesOf(scores));
    NamesArePlain(scores, names);
    forall x ensures x in ByCategory(MetricsOf(rd, scores, names)) <==> x in CategoriesOf(scores)
      ensures x in names ==> ByCategory(MetricsOf(rd, scores, names))[x] == MetricOf(rd, scores, x)
    {
      IndexedMetrics(rd, scores, names, x);
    }
    forall x <- CategoriesOf(scores) ensures EvaluationReport.Plain(x) {
      assert x in names;
    }
  }

  lemma SameSetsOfCategories(a: seq<Score>, b: seq<Score>)
    requires ScoresSound(a) && ScoresSound(b) && multiset(KeysOf(a)) == multiset(KeysOf(b))
    ensures CategoriesOf(a) == CategoriesOf(b) && Sorted(IdsOf(a)) == Sorted(IdsOf(b))
  {
    SameSamples(a, b, "");
    LexIsTotalOrder();
    Sorting.SortingIsOrderFree(LexAtMost, IdsOf(a), IdsOf(b));
    forall x ensures x in CategoriesOf(a) <==> x in CategoriesOf(b) {
      SameCategories(a, b, x);
    }
  }

  lemma SameIndex(first: seq<Score>, second: seq<Score>, bs: map<string, CategoryMetric>, cs: map<string, CategoryMetric>)
    requires multiset(KeysOf(first)) == multiset(KeysOf(second)) && bs.Keys == cs.Keys
    requires forall x <- bs :: bs[x].total == CountIn(first, Any, x)
    requires forall x <- cs :: cs[x].total == CountIn(second, Any, x)
    ensures forall x <- bs :: bs[x].total == cs[x].total
  {
    forall x <- bs ensures bs[x].total == cs[x].total {
      SameSamples(first, second, x);
    }
  }

  lemma IndexedChangesFit(rd: Rounding, bs: map<string, CategoryMetric>, cs: map<string, CategoryMetric>)
    requires bs.Keys == cs.Keys && |bs.Keys| <= MAX_CATEGORIES
    requires forall x <- bs :: bs[x].total == cs[x].total && EvaluationReport.Plain(x)
    ensures ChangesFit(rd, ChangesOf(rd, bs, cs, SharedNames(bs, cs)), SharedNames(bs, cs), bs, cs)
    ensures |SharedNames(bs, cs)| == |bs.Keys|
  {
    SharedNamesFacts(bs, cs);
    assert bs.Keys * cs.Keys == bs.Keys;
    ComparedChangesFit(rd, bs, cs, SharedNames(bs, cs));
  }

  lemma ProducedComparisonFits(rd: Rounding, first: seq<Score>, second: seq<Score>, b: Report, c: Report)
    requires ScoresFit(first) && ScoresFit(second) && multiset(KeysOf(first)) == multiset(KeysOf(second))
    requires b == Aggregate(rd, first, b.sha256, b.model, b.template)
    requires c == Aggregate(rd, second, b.sha256, c.model, c.template)
    requires IsSha256(b.sha256) && EvaluationReport.Plain(b.model) && EvaluationReport.Plain(c.model)
    ensures b.sampleIds == c.sampleIds && ComparisonFits(rd, Compare(rd, b, c), b, c)
    ensures |Compare(rd, b, c).changes| == |CategoriesOf(first)| == |CategoriesOf(second)|
  {
    var (bs, cs) := (ByCategory(b.categories), ByCategory(c.categories));
    SameSetsOfCategories(first, second);
    IndexedReport(rd, first, b.sha256, b.model, b.template);
    IndexedReport(rd, second, b.sha256, c.model, c.template);
    SameIndex(first, second, bs, cs);
    IndexedChangesFit(rd, bs, cs);
    ComparedHeadFits(rd, b, c);
  }

  lemma ComparedHeadFits(rd: Rounding, b: Report, c: Report)
    requires b.sha256 == c.sha256 && b.sampleIds == c.sampleIds && IsSha256(b.sha256)
    requires EvaluationReport.Plain(b.model) && EvaluationReport.Plain(c.model)
    ensures ComparisonHeadFits(rd, Compare(rd, b, c), b, c)
  {
  }

  // ---- The report file is within the agent's limits ----

  predicate ShortReport(r: Report) {
    && |r.sha256| <= MAX_STRING && |r.model| <= MAX_STRING && |r.template| <= MAX_STRING
    && (forall i :: 0 <= i < |r.categories| ==> |r.categories[i].category| <= MAX_STRING)
    && (forall i :: 0 <= i < |r.sampleIds| ==> |r.sampleIds[i]| <= MAX_STRING)
  }

  lemma MetricIsShallow(m: CategoryMetric, depth: int)
    requires |m.category| <= MAX_STRING && depth >= 1
    ensures Shallow(MetricJson(m), depth)
  {
  }

  lemma ReportIsShallow(r: Report, depth: int)
    requires ShortReport(r) && depth >= 3
    ensures Shallow(ReportJson(r), depth)
  {
    var metrics := MetricTrees(r.categories);
    forall i | 0 <= i < |metrics| ensures Shallow(metrics[i], depth - 2) {
      MetricIsShallow(r.categories[i], depth - 2);
    }
    assert Shallow(List(metrics), depth - 1);
    assert Shallow(Strings(r.sampleIds), depth - 1);
  }

  lemma ComparisonIsShallow(x: Comparison, depth: int)
    requires |x.sha256| <= MAX_STRING && |x.baselineModel| <= MAX_STRING && |x.candidateModel| <= MAX_STRING && x.reason.None?
    requires forall i :: 0 <= i < |x.changes| ==> |x.changes[i].category| <= MAX_STRING
    requires depth >= 3
    ensures Shallow(ComparisonJson(x), depth)
  {
    var changes := ChangeTrees(x.changes);
    forall i | 0 <= i < |changes| ensures Shallow(changes[i], depth - 2) {
      assert changes[i] == ChangeJson(x.changes[i]);
    }
    assert Shallow(List(changes), depth - 1);
  }

  lemma PairIsShallow(p: Pair, depth: int)
    requires Shallow(ReportJson(p.baseline), depth - 1) && Shallow(ReportJson(p.candidate), depth - 1)
    requires Shallow(ComparisonJson(p.comparison), depth - 1) && depth >= 1
    ensures Shallow(PairJson(p), depth)
  {
  }

  lemma FittingReportIsShort(rd: Rounding, r: Report)
    requires MetricFits(rd, r) && NormalReport(r) == r
    ensures ShortReport(r)
  {
    forall i | 0 <= i < |r.categories| ensures |r.categories[i].category| <= 256 {
      assert CategoryFits(rd, r.categories[i], r.total);
      assert NormalReport(r).categories[i] == r.categories[i];
    }
    forall i | 0 <= i < |r.sampleIds| ensures |r.sampleIds[i]| <= 256 {
      assert SafeShortText(r.sampleIds[i]).Some?;
      assert NormalReport(r).sampleIds[i] == r.sampleIds[i];
    }
  }

  lemma FittingComparisonIsShort(rd: Rounding, b: Report, c: Report)
    requires ComparisonFits(rd, Compare(rd, b, c), b, c) && EvaluationReport.Plain(b.model) && EvaluationReport.Plain(c.model)
    requires forall x :: x in ByCategory(b.categories) ==> EvaluationReport.Plain(x)
    ensures Shallow(ComparisonJson(Compare(rd, b, c)), 31)
  {
    var x := Compare(rd, b, c);
    forall i | 0 <= i < |x.changes| ensures |x.changes[i].category| <= 256 {
      assert x.changes[i].category == SharedNames(ByCategory(b.categories), ByCategory(c.categories))[i];
    }
    ComparisonIsShallow(x, 31);
  }

  predicate IsTemplate(template: string) {
    template == "base" || template == "instruct"
  }

  /** The report of two score lists over one data set. */
  ghost function Produced(
    rd: Rounding, first: seq<Score>, second: seq<Score>, sha256: string, baseTemplate: string, candidateTemplate: string): Pair
    requires first != [] && second != []
  {
    var b := Aggregate(rd, first, sha256, "baseline", baseTemplate);
    var c := Aggregate(rd, second, sha256, "candidate", candidateTemplate);
    Pair(b, c, Compare(rd, b, c))
  }

  lemma AcceptedBySize(rd: Rounding, p: Pair, e: Expected, fileSize: nat)
    requires ReportsFit(rd, p, e) && Bounded(PairJson(p), 0, 0).Some? && fileSize >= 1
    ensures AgentAccepts(rd, p, e, fileSize) <==> fileSize <= MAX_REPORT_BYTES
  {
  }

  /** The size of a pair's file, from its ids and the number of its categories. */
  ghost predicate SizedBy(w: Writer, p: Pair, ids: seq<string>, k: nat) {
    2 * IdsSize(ids) <= ReportBytes(w, p) <= 2 * IdsSize(ids) + 3 * CATEGORY_BYTES * k + FIXED_BYTES
  }

  /** Any two score lists over the same samples, in any order, give a pair report with 34 + 17k + 2n JSON
      nodes that is right in every respect but its size: the agent accepts it exactly when the file is
      within the limit. */
  lemma ProducedPairsAreAccepted(
    rd: Rounding, w: Writer, first: seq<Score>, second: seq<Score>, sha256: string, baseTemplate: string, candidateTemplate: string)
    requires Sane(rd) && SaneWriter(w, MAX_RECORDS)
    requires ScoresFit(first) && ScoresFit(second) && multiset(KeysOf(first)) == multiset(KeysOf(second))
    requires IsSha256(sha256) && IsTemplate(baseTemplate) && IsTemplate(candidateTemplate)
    ensures var p := Produced(rd, first, second, sha256, baseTemplate, candidateTemplate);
            && (AgentAccepts(rd, p, Expected(sha256, |first|, baseTemplate, candidateTemplate), ReportBytes(w, p))
                <==> ReportBytes(w, p) <= MAX_REPORT_BYTES)
            && Nodes(PairJson(p)) == 34 + 17 * |CategoriesOf(first)| + 2 * |first| <= MAX_JSON_NODES
            && SizedBy(w, p, IdsOf(first), |CategoriesOf(first)|)
  {
    var b := Aggregate(rd, first, sha256, "baseline", baseTemplate);
    var c := Aggregate(rd, second, sha256, "candidate", candidateTemplate);
    ComparedPairIsAccepted(rd, w, first, second, b, c, Pair(b, c, Compare(rd, b, c)));
  }

  lemma ComparedPairIsAccepted(rd: Rounding, w: Writer, first: seq<Score>, second: seq<Score>, b: Report, c: Report, p: Pair)
    requires Sane(rd) && SaneWriter(w, MAX_RECORDS) && p == Pair(b, c, Compare(rd, b, c))
    requires ScoresFit(first) && ScoresFit(second) && multiset(KeysOf(first)) == multiset(KeysOf(second))
    requires b == Aggregate(rd, first, b.sha256, b.model, b.template) && b.model == "baseline"
    requires c == Aggregate(rd, second, b.sha256, c.model, c.template) && c.model == "candidate"
    requires IsSha256(b.sha256) && IsTemplate(b.template) && IsTemplate(c.template)
    ensures AgentAccepts(rd, p, Expected(b.sha256, |first|, b.template, c.template), ReportBytes(w, p))
            <==> ReportBytes(w, p) <= MAX_REPORT_BYTES
    ensures Nodes(PairJson(p)) == 34 + 17 * |CategoriesOf(first)| + 2 * |first| <= MAX_JSON_NODES
    ensures SizedBy(w, p, IdsOf(first), |CategoriesOf(first)|)
  {
    FixedNamesArePlain();
    ProducedPairFits(rd, first, second, b, c);
    ProducedSize(rd, w, first, p);
    AcceptedBySize(rd, p, Expected(b.sha256, |first|, b.template, c.template), ReportBytes(w, p));
  }

  lemma ProducedPairFits(rd: Rounding, first: seq<Score>, second: seq<Score>, b: Report, c: Report)
    requires Sane(rd) && ScoresFit(first) && ScoresFit(second) && multiset(KeysOf(first)) == multiset(KeysOf(second))
    requires b == Aggregate(rd, first, b.sha256, b.model, b.template) && b.model == "baseline" && EvaluationReport.Plain(b.model)
    requires c == Aggregate(rd, second, b.sha256, c.model, c.template) && c.model == "candidate" && EvaluationReport.Plain(c.model)
    requires IsSha256(b.sha256) && IsTemplate(b.template) && IsTemplate(c.template)
    ensures var p := Pair(b, c, Compare(rd, b, c));
            && ReportsFit(rd, p, Expected(b.sha256, |first|, b.template, c.template)) && Bounded(PairJson(p), 0, 0).Some?
            && Nodes(PairJson(p)) == 34 + 17 * |CategoriesOf(first)| + 2 * |first| <= MAX_JSON_NODES
            && PairShape(rd, p, |CategoriesOf(first)|) && b.sampleIds == Sorted(IdsOf(first))
  {
    ProducedReportFits(rd, first, b);
    ProducedReportFits(rd, second, c);
    ProducedReportIsNormal(rd, first, b.sha256, b.model, b.template);
    ProducedReportIsNormal(rd, second, b.sha256, c.model, c.template);
    ProducedComparisonFits(rd, first, second, b, c);
    IndexedReport(rd, first, b.sha256, b.model, b.template);
    SameSamples(first, second, "");
    FittingPartsFit(rd, b, c, Compare(rd, b, c));
    PairWithinLimits(rd, b, c, |CategoriesOf(first)|, |first|);
    ComparedNamesAreShort(rd, b, c);
  }

  /** What the size of a pair needs: reports in normal form over the same ids, k categories, short names. */
  predicate PairShape(rd: Rounding, p: Pair, k: nat) {
    var (b, c, x) := (p.baseline, p.candidate, p.comparison);
    && MetricFits(rd, b) && MetricFits(rd, c) && NormalReport(b) == b && NormalReport(c) == c
    && |b.model| <= 16 && |c.model| <= 16 && |x.baselineModel| <= 16 && |x.candidateModel| <= 16 && |x.sha256| <= 64 && x.reason.None?
    && b.sampleIds == c.sampleIds && |b.categories| == |c.categories| == |x.changes| == k
    && forall i :: 0 <= i < |x.changes| ==> |x.changes[i].category| <= 256
  }

  lemma FittingReportIsSmall(rd: Rounding, r: Report)
    requires MetricFits(rd, r) && NormalReport(r) == r && |r.model| <= 16
    ensures SmallReport(r)
  {
    FittingReportIsShort(rd, r);
    forall i | 0 <= i < |r.categories| ensures SmallMetric(r.categories[i]) {
      assert CategoryFits(rd, r.categories[i], r.total);
      assert NormalReport(r).categories[i] == r.categories[i];
    }
  }

  lemma NamedChangesAreShort(rd: Rounding, bs: map<string, CategoryMetric>, cs: map<string, CategoryMetric>, names: seq<string>)
    requires forall i :: 0 <= i < |names| ==> names[i] in bs && names[i] in cs
    requires forall x <- bs :: EvaluationReport.Plain(x)
    ensures forall i :: 0 <= i < |names| ==> |ChangesOf(rd, bs, cs, names)[i].category| <= 256
  {
  }

  lemma ComparedNamesAreShort(rd: Rounding, b: Report, c: Report)
    requires forall x <- ByCategory(b.categories) :: EvaluationReport.Plain(x)
    ensures forall i :: 0 <= i < |Compare(rd, b, c).changes| ==> |Compare(rd, b, c).changes[i].category| <= 256
  {
    var (bs, cs) := (ByCategory(b.categories), ByCategory(c.categories));
    NamedChangesAreShort(rd, bs, cs, SharedNames(bs, cs));
  }

  lemma SortedIdsSize(scores: seq<Score>)
    ensures IdsSize(Sorted(IdsOf(scores))) == IdsSize(IdsOf(scores))
  {
    LexIsTotalOrder();
    Sorting.SortedIsOrdered(LexAtMost, IdsOf(scores));
    SumInAnyOrder(InEscapes, Sorted(IdsOf(scores)), IdsOf(scores));
    assert |multiset(Sorted(IdsOf(scores)))| == |multiset(IdsOf(scores))|;
  }

  lemma ShapedIsSmall(rd: Rounding, p: Pair, k: nat)
    requires PairShape(rd, p, k)
    ensures SmallReport(p.baseline) && SmallReport(p.candidate) && SmallComparison(p.comparison)
  {
    FittingReportIsSmall(rd, p.baseline);
    FittingReportIsSmall(rd, p.candidate);
  }

  lemma SmallIsSized(w: Writer, p: Pair, ids: seq<string>, k: nat)
    requires SaneWriter(w, MAX_RECORDS) && SmallReport(p.baseline) && SmallReport(p.candidate) && SmallComparison(p.comparison)
    requires p.baseline.sampleIds == p.candidate.sampleIds && IdsSize(p.baseline.sampleIds) == IdsSize(ids)
    requires |p.baseline.categories| == |p.candidate.categories| == |p.comparison.changes| == k
    ensures SizedBy(w, p, ids, k)
  {
    PairSize(w, p);
  }

  lemma ProducedSize(rd: Rounding, w: Writer, scores: seq<Score>, p: Pair)
    requires SaneWriter(w, MAX_RECORDS) && PairShape(rd, p, |CategoriesOf(scores)|) && p.baseline.sampleIds == Sorted(IdsOf(scores))
    ensures SizedBy(w, p, IdsOf(scores), |CategoriesOf(scores)|)
  {
    ShapedIsSmall(rd, p, |CategoriesOf(scores)|);
    SortedIdsSize(scores);
    SmallIsSized(w, p, IdsOf(scores), |CategoriesOf(scores)|);
  }

  lemma FittingPartsFit(rd: Rounding, b: Report, c: Report, x: Comparison)
    requires MetricFits(rd, b) && MetricFits(rd, c) && NormalReport(b) == b && NormalReport(c) == c && ComparisonFits(rd, x, b, c)
    requires b.model == "baseline" && c.model == "candidate" && b.sha256 == c.sha256 && b.total == c.total && b.sampleIds == c.sampleIds
    ensures b.total >= 0 && ReportsFit(rd, Pair(b, c, x), Expected(b.sha256, b.total, b.template, c.template))
  {
  }

  lemma PairWithinLimits(rd: Rounding, b: Report, c: Report, k: nat, n: nat)
    requires MetricFits(rd, b) && MetricFits(rd, c) && NormalReport(b) == b && NormalReport(c) == c
    requires ComparisonFits(rd, Compare(rd, b, c), b, c) && EvaluationReport.Plain(b.model) && EvaluationReport.Plain(c.model)
    requires forall x :: x in ByCategory(b.categories) ==> EvaluationReport.Plain(x)
    requires |b.categories| == |c.categories| == |Compare(rd, b, c).changes| == k <= MAX_CATEGORIES
    requires |b.sampleIds| == |c.sampleIds| == n <= MAX_RECORDS
    ensures var p := Pair(b, c, Compare(rd, b, c));
            Nodes(PairJson(p)) == 34 + 17 * k + 2 * n <= MAX_JSON_NODES && Bounded(PairJson(p), 0, 0).Some?
  {
    FittingReportIsShort(rd, b);
    FittingReportIsShort(rd, c);
    FittingComparisonIsShort(rd, b, c);
    SmallPairIsBounded(Pair(b, c, Compare(rd, b, c)), k, n);
  }

  lemma SmallPairIsBounded(p: Pair, k: nat, n: nat)
    requires ShortReport(p.baseline) && ShortReport(p.candidate) && Shallow(ComparisonJson(p.comparison), 31)
    requires |p.baseline.categories| == |p.candidate.categories| == |p.comparison.changes| == k <= MAX_CATEGORIES
    requires |p.baseline.sampleIds| == |p.candidate.sampleIds| == n <= MAX_RECORDS
    ensures Nodes(PairJson(p)) == 34 + 17 * k + 2 * n <= MAX_JSON_NODES && Bounded(PairJson(p), 0, 0).Some?
  {
    PairNodes(p, k, n);
    ReportIsShallow(p.baseline, 31);
    ReportIsShallow(p.candidate, 31);
    PairIsShallow(p, MAX_JSON_DEPTH);
    BoundedDecides(PairJson(p), 0, 0);
  }

  lemma FixedNamesArePlain()
    ensures EvaluationReport.Plain("baseline") && EvaluationReport.Plain("candidate")
  {
    assert StripStart("baseline") == "baseline" && StripEnd("baseline") == "baseline";
    assert StripStart("candidate") == "candidate" && StripEnd("candidate") == "candidate";
  }

  // ---- From samples to scores ----

  datatype Sample = Sample(id: string, category: string, choices: Option<set<string>>, answers: seq<string>)

  /** Reading a choice out of a prediction, and normalising free text. */
  datatype Scorer = Scorer(extract: (string, set<string>) -> Option<string>, normalize: string -> string)

  function ScoreAnswer(scorer: Scorer, sample: Sample, prediction: string, latency: real): Score
    requires sample.answers != []
  {
    var shown := if latency < 0.0 then 0.0 else latency;
    match sample.choices
    case Some(labels) =>
      var parsed := scorer.extract(prediction, labels);
      Score(sample.id, sample.category, parsed == Some(sample.answers[0]), parsed.Some?, shown)
    case None =>
      var parsed := scorer.normalize(prediction);
      Score(sample.id, sample.category,
            parsed != "" && exists i :: 0 <= i < |sample.answers| && parsed == scorer.normalize(sample.answers[i]),
            parsed != "", shown)
  }

  function ScoreAll(scorer: Scorer, samples: seq<Sample>, predictions: seq<string>, latencies: seq<real>): seq<Score>
    requires |samples| == |predictions| == |latencies| && forall i :: 0 <= i < |samples| ==> samples[i].answers != []
  {
    seq(|samples|, i requires 0 <= i < |samples| => ScoreAnswer(scorer, samples[i], predictions[i], latencies[i]))
  }

  function SampleCategories(samples: seq<Sample>): set<string> {
    set i | 0 <= i < |samples| :: samples[i].category
  }

  predicate SamplesFit(samples: seq<Sample>) {
    && 1 <= |samples| <= MAX_RECORDS
    && (forall i :: 0 <= i < |samples| ==>
          samples[i].answers != [] && EvaluationReport.Plain(samples[i].id) && EvaluationReport.Plain(samples[i].category))
    && (forall i, j :: 0 <= i < j < |samples| ==> samples[i].id != samples[j].id)
    && |SampleCategories(samples)| <= MAX_CATEGORIES
  }

  lemma SameCategorySets(scores: seq<Score>, samples: seq<Sample>)
    requires |scores| == |samples| && forall i :: 0 <= i < |samples| ==> scores[i].category == samples[i].category
    ensures CategoriesOf(scores) == SampleCategories(samples)
  {
    forall x ensures x in CategoriesOf(scores) <==> x in SampleCategories(samples) {
      if x in CategoriesOf(scores) {
        var i :| 0 <= i < |scores| && scores[i].category == x;
        assert samples[i].category == x;
      }
      if x in SampleCategories(samples) {
        var i :| 0 <= i < |samples| && samples[i].category == x;
        assert scores[i].category == x;
      }
    }
  }

  lemma ScoredSamplesFit(scores: seq<Score>, samples: seq<Sample>)
    requires SamplesFit(samples) && ScoresSound(scores) && |scores| == |samples|
    requires forall i :: 0 <= i < |samples| ==> scores[i].id == samples[i].id && scores[i].category == samples[i].category
    ensures ScoresFit(scores)
    ensures KeysOf(scores) == seq(|samples|, i requires 0 <= i < |samples| => Key(samples[i].id, samples[i].category))
  {
    SameCategorySets(scores, samples);
  }

  lemma ScoringFits(scorer: Scorer, samples: seq<Sample>, predictions: seq<string>, latencies: seq<real>)
    requires SamplesFit(samples) && |samples| == |predictions| == |latencies|
    ensures var scores := ScoreAll(scorer, samples, predictions, latencies);
            ScoresFit(scores) && KeysOf(scores) == seq(|samples|, i requires 0 <= i < |samples| => Key(samples[i].id, samples[i].category))
  {
    ScoredSamplesFit(ScoreAll(scorer, samples, predictions, latencies), samples);
  }

  function SampleIds(samples: seq<Sample>): seq<string> {
    seq(|samples|, i requires 0 <= i < |samples| => samples[i].id)
  }

  /** One evaluation: a sample list, what the two models answered and when, and the fixed settings. */
  datatype Evaluation = Evaluation(
    scorer: Scorer, samples: seq<Sample>, first: seq<string>, second: seq<string>,
    firstLatencies: seq<real>, secondLatencies: seq<real>, sha256: string, baseTemplate: string, candidateTemplate: string)

  predicate EvaluationFits(v: Evaluation) {
    && SamplesFit(v.samples) && IsSha256(v.sha256) && IsTemplate(v.baseTemplate) && IsTemplate(v.candidateTemplate)
    && |v.samples| == |v.first| == |v.second| == |v.firstLatencies| == |v.secondLatencies|
  }

  ghost function PairOf(rd: Rounding, v: Evaluation): Pair
    requires EvaluationFits(v)
  {
    Produced(rd, ScoreAll(v.scorer, v.samples, v.first, v.firstLatencies), ScoreAll(v.scorer, v.samples, v.second, v.secondLatencies),
             v.sha256, v.baseTemplate, v.candidateTemplate)
  }

  ghost predicate AcceptedByAgent(rd: Rounding, w: Writer, v: Evaluation)
    requires EvaluationFits(v)
  {
    AgentAccepts(rd, PairOf(rd, v), Expected(v.sha256, |v.samples|, v.baseTemplate, v.candidateTemplate), ReportBytes(w, PairOf(rd, v)))
  }

  /** End to end: whatever the two models answer on an accepted sample list, the agent accepts the pair
      report exactly when its file is within the size limit, and then the control plane accepts it too.
      What the size comes to depends on the ids, up to a bounded amount for each category. */
  lemma EveryEvaluationIsAccepted(rd: Rounding, w: Writer, v: Evaluation, resultPath: string, manifestPath: string)
    requires Sane(rd) && SaneWriter(w, MAX_RECORDS) && EvaluationFits(v)
    requires 1 <= |resultPath| <= 1024 && 1 <= |manifestPath| <= 1024
    ensures AcceptedByAgent(rd, w, v) <==> ReportBytes(w, PairOf(rd, v)) <= MAX_REPORT_BYTES
    ensures AcceptedByAgent(rd, w, v) ==> ControlAccepts(rd, MetadataOf(PairOf(rd, v), resultPath, manifestPath))
    ensures SizedBy(w, PairOf(rd, v), SampleIds(v.samples), |SampleCategories(v.samples)|)
  {
    var (xs, ys) := (ScoreAll(v.scorer, v.samples, v.first, v.firstLatencies), ScoreAll(v.scorer, v.samples, v.second, v.secondLatencies));
    ScoringFits(v.scorer, v.samples, v.first, v.firstLatencies);
    ScoringFits(v.scorer, v.samples, v.second, v.secondLatencies);
    ScoredNames(xs, v.samples);
    ProducedPairsAreAccepted(rd, w, xs, ys, v.sha256, v.baseTemplate, v.candidateTemplate);
    if AcceptedByAgent(rd, w, v) {
      AgentImpliesControl(rd, PairOf(rd, v), Expected(v.sha256, |v.samples|, v.baseTemplate, v.candidateTemplate),
                          ReportBytes(w, PairOf(rd, v)), resultPath, manifestPath);
    }
  }

  lemma ScoredNames(scores: seq<Score>, samples: seq<Sample>)
    requires |scores| == |samples|
    requires forall i :: 0 <= i < |samples| ==> scores[i].id == samples[i].id && scores[i].category == samples[i].category
    ensures IdsOf(scores) == SampleIds(samples) && CategoriesOf(scores) == SampleCategories(samples)
  {
    SameCategorySets(scores, samples);
  }

  const MAX_ESCAPED_ID_BYTES := 49_000_000

  /** A bound that can be checked beforehand: with at most 49,000,000 bytes of ids, as written, the report
      is accepted whatever its categories and numbers are. */
  lemma ModerateIdsAreAccepted(rd: Rounding, w: Writer, v: Evaluation)
    requires Sane(rd) && SaneWriter(w, MAX_RECORDS) && EvaluationFits(v)
    ensures SumOf(InEscapes, SampleIds(v.samples)) <= MAX_ESCAPED_ID_BYTES ==> AcceptedByAgent(rd, w, v)
    ensures 2 * IdsSize(SampleIds(v.samples)) > MAX_REPORT_BYTES ==> !AcceptedByAgent(rd, w, v)
  {
    EveryEvaluationIsAccepted(rd, w, v, "r", "m");
    SizeDecides(ReportBytes(w, PairOf(rd, v)), SampleIds(v.samples), |SampleCategories(v.samples)|);
  }

  lemma SizeDecides(bytes: nat, ids: seq<string>, k: nat)
    requires |ids| <= MAX_RECORDS && k <= MAX_CATEGORIES
    requires 2 * IdsSize(ids) <= bytes <= 2 * IdsSize(ids) + 3 * CATEGORY_BYTES * k + FIXED_BYTES
    ensures SumOf(InEscapes, ids) <= MAX_ESCAPED_ID_BYTES ==> bytes <= MAX_REPORT_BYTES
    ensures 2 * IdsSize(ids) > MAX_REPORT_BYTES ==> bytes > MAX_REPORT_BYTES
  {
  }

  /** How one answer is scored.  With choices it is valid when a choice can be read out of it, and correct when that is the
      first accepted answer; without choices it is valid when something is left of it, and correct when that is what is
      left of any accepted answer.  A latency below zero counts as none. */
  lemma AnswersAreScored(scorer: Scorer, sample: Sample, prediction: string, latency: real)
    requires sample.answers != []
    ensures var score := ScoreAnswer(scorer, sample, prediction, latency);
            && score.id == sample.id && score.category == sample.category
            && (latency >= 0.0 ==> score.latency == latency) && (latency < 0.0 ==> score.latency == 0.0)
            && (sample.choices.Some? ==>
                  var read := scorer.extract(prediction, sample.choices.value);
                  (score.valid <==> read != None) && (score.correct <==> read == Some(sample.answers[0])))
            && (sample.choices == None ==>
                  var left := scorer.normalize(prediction);
                  && (score.valid <==> left != "")
                  && (score.correct <==> left != "" && exists answer <- sample.answers :: scorer.normalize(answer) == left))
  {
    if sample.choices == None && exists answer <- sample.answers :: scorer.normalize(answer) == scorer.normalize(prediction) {
      var answer :| answer in sample.answers && scorer.normalize(answer) == scorer.normalize(prediction);
      var i :| 0 <= i < |sample.answers| && sample.answers[i] == answer;
    }
    forall i | 0 <= i < |sample.answers| ensures sample.answers[i] in sample.answers {}
  }

  /** Every sample is scored on its own answer, in order. */
  lemma EverySampleIsScored(scorer: Scorer, samples: seq<Sample>, predictions: seq<string>, latencies: seq<real>, i: nat)
    requires i < |samples| == |predictions| == |latencies| && forall k :: 0 <= k < |samples| ==> samples[k].answers != []
    ensures var scores := ScoreAll(scorer, samples, predictions, latencies);
            |scores| == |samples| && scores[i] == ScoreAnswer(scorer, samples[i], predictions[i], latencies[i])
  {
  }
}
