/** Evaluation reports: scores are aggregated and compared by the runner, checked by the node agent, and
    checked again by the control plane. */
module EvaluationReport {
  import opened Contract
  import JsonlIngest
  import Sorting

  const MAX_RECORDS := 200_000
  const MAX_CATEGORIES := 4_096
  const MAX_JSON_NODES := 600_000
  const MAX_JSON_DEPTH := 32
  const MAX_REPORT_BYTES := 128 * 1024 * 1024
  const MAX_STRING := 8192
  const MAX_KEY := 256
  const TOLERANCE := 0.0001

  // ---- Text ----

  function StripStart(s: string): string {
    if s != "" && JsonlIngest.IsBlank(s[0]) then StripStart(s[1..]) else s
  }

  function StripEnd(s: string): string {
    if s != "" && JsonlIngest.IsBlank(s[|s| - 1]) then StripEnd(s[..|s| - 1]) else s
  }

  predicate HasControl(s: string) {
    exists i :: 0 <= i < |s| && s[i] < ' '
  }

  function SafeShortText(value: string): Option<string> {
    var s := StripEnd(StripStart(value));
    if s == "" || |s| > 256 || HasControl(s) then None else Some(s)
  }

  /** A name the checks leave as it is. */
  predicate Plain(s: string) {
    SafeShortText(s) == Some(s)
  }

  lemma {:induction false} StripEndStable(s: string)
    ensures StripEnd(StripEnd(s)) == StripEnd(s)
    ensures s != "" && !JsonlIngest.IsBlank(s[0]) ==> StripEnd(s) != "" && StripEnd(s)[0] == s[0]
  {
    if s != "" && JsonlIngest.IsBlank(s[|s| - 1]) {
      StripEndStable(s[..|s| - 1]);
    }
  }

  lemma {:induction false} StripStartStops(s: string)
    ensures StripStart(s) == "" || !JsonlIngest.IsBlank(StripStart(s)[0])
  {
    if s != "" && JsonlIngest.IsBlank(s[0]) {
      StripStartStops(s[1..]);
    }
  }

  /** What the check returns needs no further normalising. */
  lemma SafeTextIsPlain(value: string)
    ensures SafeShortText(value).Some? ==> Plain(SafeShortText(value).value)
  {
    var a := StripStart(value);
    StripStartStops(value);
    StripEndStable(a);
  }

  predicate AllBlank(s: string) {
    forall i :: 0 <= i < |s| ==> JsonlIngest.IsBlank(s[i])
  }

  /** `t` is what is left of `s` without the white space at its two ends. */
  ghost predicate Stripped(s: string, t: string) {
    && (t == "" || (!JsonlIngest.IsBlank(t[0]) && !JsonlIngest.IsBlank(t[|t| - 1])))
    && exists before, after :: AllBlank(before) && AllBlank(after) && s == before + t + after
  }

  lemma {:induction false} StripStartSplits(s: string)
    ensures StripStart(s) == "" || !JsonlIngest.IsBlank(StripStart(s)[0])
    ensures exists before :: AllBlank(before) && s == before + StripStart(s)
  {
    if s != "" && JsonlIngest.IsBlank(s[0]) {
      StripStartSplits(s[1..]);
      var before :| AllBlank(before) && s[1..] == before + StripStart(s[1..]);
      assert AllBlank([s[0]] + before) && s == [s[0]] + before + StripStart(s);
    } else {
      assert AllBlank("") && s == "" + s;
    }
  }

  lemma {:induction false} StripEndSplits(s: string)
    ensures StripEnd(s) <= s && (StripEnd(s) == "" || !JsonlIngest.IsBlank(StripEnd(s)[|StripEnd(s)| - 1]))
    ensures AllBlank(s[|StripEnd(s)|..])
  {
    if s != "" && JsonlIngest.IsBlank(s[|s| - 1]) {
      var init := s[..|s| - 1];
      StripEndSplits(init);
      assert s == init + [s[|s| - 1]];
      assert s[|StripEnd(s)|..] == init[|StripEnd(s)|..] + [s[|s| - 1]];
    }
  }

  lemma {:induction false} StripStartSkips(before: string, rest: string)
    requires AllBlank(before) && (rest == "" || !JsonlIngest.IsBlank(rest[0]))
    ensures StripStart(before + rest) == rest
  {
    if before == "" {
      assert before + rest == rest;
    } else {
      assert (before + rest)[1..] == before[1..] + rest;
      StripStartSkips(before[1..], rest);
    }
  }

  lemma {:induction false} StripEndSkips(rest: string, after: string)
    requires AllBlank(after) && (rest == "" || !JsonlIngest.IsBlank(rest[|rest| - 1]))
    ensures StripEnd(rest + after) == rest
  {
    if after == "" {
      assert rest + after == rest;
    } else {
      assert (rest + after)[..|rest + after| - 1] == rest + after[..|after| - 1];
      StripEndSkips(rest, after[..|after| - 1]);
    }
  }

  lemma EndKeepsStart(rest: string)
    requires rest == "" || !JsonlIngest.IsBlank(rest[0])
    ensures var t := StripEnd(rest);
            && t <= rest && AllBlank(rest[|t|..]) && rest == t + rest[|t|..]
            && (t == "" || (!JsonlIngest.IsBlank(t[0]) && !JsonlIngest.IsBlank(t[|t| - 1])))
  {
    StripEndSplits(rest);
  }

  lemma ThreeParts(s: string, before: string, rest: string, t: string, after: string)
    requires AllBlank(before) && AllBlank(after) && s == before + rest && rest == t + after
    requires t == "" || (!JsonlIngest.IsBlank(t[0]) && !JsonlIngest.IsBlank(t[|t| - 1]))
    ensures Stripped(s, t)
  {
    assert s == before + t + after;
  }

  lemma StrippingSplits(s: string)
    ensures Stripped(s, StripEnd(StripStart(s)))
  {
    var rest := StripStart(s);
    StripStartSplits(s);
    EndKeepsStart(rest);
    var before :| AllBlank(before) && s == before + rest;
    ThreeParts(s, before, rest, StripEnd(rest), rest[|StripEnd(rest)|..]);
  }

  /** Stripping from the start and then from the end leaves exactly that. */
  lemma StrippingIsExact(s: string, t: string)
    ensures StripEnd(StripStart(s)) == t <==> Stripped(s, t)
  {
    StrippingSplits(s);
    if Stripped(s, t) {
      var before, after :| AllBlank(before) && AllBlank(after) && s == before + t + after;
      OnlyOneRest(before, t, after);
    }
  }

  lemma OnlyOneRest(before: string, t: string, after: string)
    requires AllBlank(before) && AllBlank(after)
    requires t == "" || (!JsonlIngest.IsBlank(t[0]) && !JsonlIngest.IsBlank(t[|t| - 1]))
    ensures StripEnd(StripStart(before + t + after)) == t
  {
    if t == "" {
      assert before + t + after == (before + after) + "" && AllBlank(before + after);
      StripStartSkips(before + after, "");
    } else {
      assert before + t + after == before + (t + after) && (t + after)[0] == t[0];
      StripStartSkips(before, t + after);
      StripEndSkips(t, after);
    }
  }

  /** A short text is what is left after stripping, if that has 1 to 256 characters and no control character. */
  lemma ShortTextsAreSafe(value: string, t: string)
    ensures SafeShortText(value) == Some(t) <==> Stripped(value, t) && 1 <= |t| <= 256 && forall i :: 0 <= i < |t| ==> t[i] as int >= 32
  {
    StrippingIsExact(value, t);
  }

  predicate IsSha256(s: string) {
    |s| == 64 && forall i :: 0 <= i < |s| ==> '0' <= s[i] <= '9' || 'a' <= s[i] <= 'f'
  }

  /** A digest is written as 64 digits and letters from a to f, by their codes. */
  lemma DigestsAreHex(s: string)
    ensures IsSha256(s) <==> |s| == 64 && forall i :: 0 <= i < |s| ==> 48 <= s[i] as int <= 57 || 97 <= s[i] as int <= 102
  {
  }

  // ---- Sorted lists of strings ----

  predicate LexAtMost(a: string, b: string) {
    a == "" || (b != "" && (a[0] < b[0] || (a[0] == b[0] && LexAtMost(a[1..], b[1..]))))
  }

  lemma {:induction false} LexLaws(a: string, b: string, c: string)
    ensures LexAtMost(a, b) || LexAtMost(b, a)
    ensures LexAtMost(a, b) && LexAtMost(b, a) ==> a == b
    ensures LexAtMost(a, b) && LexAtMost(b, c) ==> LexAtMost(a, c)
  {
    if a != "" && b != "" {
      LexLaws(a[1..], b[1..], if c == "" then c else c[1..]);
      assert a == [a[0]] + a[1..] && b == [b[0]] + b[1..];
    }
  }

  /** The order of strings: by the first character that differs, and a beginning comes before what continues it. */
  lemma {:induction false} OrderIsByFirstDifference(a: string, b: string)
    ensures LexAtMost(a, b) <==> a <= b || exists k :: 0 <= k < |a| && k < |b| && a[..k] == b[..k] && a[k] < b[k]
  {
    if a != "" && b != "" && a[0] == b[0] {
      var (x, y) := (a[1..], b[1..]);
      OrderIsByFirstDifference(x, y);
      assert a == [a[0]] + x && b == [b[0]] + y;
      assert a <= b <==> x <= y;
      if k :| 0 <= k < |x| && k < |y| && x[..k] == y[..k] && x[k] < y[k] {
        assert a[..k + 1] == [a[0]] + x[..k] && b[..k + 1] == [b[0]] + y[..k];
        assert a[k + 1] < b[k + 1];
      }
      if k :| 0 <= k < |a| && k < |b| && a[..k] == b[..k] && a[k] < b[k] {
        assert k > 0 && x[..k - 1] == a[..k][1..] && y[..k - 1] == b[..k][1..];
        assert x[k - 1] < y[k - 1];
      }
    } else if a != "" && b != "" {
      if a[0] < b[0] { assert a[..0] == b[..0]; }
      forall k | 0 < k < |a| && k < |b| ensures a[..k] != b[..k] {
        assert a[..k][0] == a[0] && b[..k][0] == b[0];
      }
    }
  }

  lemma LexIsTotalOrder()
    ensures Sorting.TotalPreorder(LexAtMost) && Sorting.Antisymmetric(LexAtMost)
  {
    forall a, b, c ensures LexAtMost(a, b) || LexAtMost(b, a)
      ensures LexAtMost(a, b) && LexAtMost(b, a) ==> a == b
      ensures LexAtMost(a, b) && LexAtMost(b, c) ==> LexAtMost(a, c)
    {
      LexLaws(a, b, c);
    }
  }

  function Sorted(s: seq<string>): seq<string> {
    Sorting.Sorted(LexAtMost, s)
  }

  /** The elements of a set, sorted. */
  ghost function SortedSet(names: set<string>): seq<string> {
    Sorted(Listed(names))
  }

  ghost function Listed(names: set<string>): (s: seq<string>)
    ensures multiset(s) == multiset(names)
  {
    if names == {} then []
    else
      var x :| x in names;
      assert multiset(names) == multiset(names - {x}) + multiset{x};
      Listed(names - {x}) + [x]
  }

  lemma SortedSetFacts(names: set<string>)
    ensures var s := SortedSet(names);
            && Sorting.Ordered(LexAtMost, s) && multiset(s) == multiset(names) && |s| == |names| && Distinct(s)
            && (forall x :: x in s <==> x in names)
  {
    var s := SortedSet(names);
    LexIsTotalOrder();
    Sorting.SortedIsOrdered(LexAtMost, Listed(names));
    assert |s| == |multiset(s)| == |multiset(names)| == |names|;
    assert forall x :: x in s <==> x in multiset(s);
    SetHasNoRepeats(s, names);
  }

  lemma SortedSetMembers(names: set<string>)
    ensures forall i :: 0 <= i < |SortedSet(names)| ==> SortedSet(names)[i] in names
  {
    SortedSetFacts(names);
    var s := SortedSet(names);
    forall i | 0 <= i < |s| ensures s[i] in names {
      assert s[i] in s;
    }
  }

  lemma SetHasNoRepeats(s: seq<string>, names: set<string>)
    requires multiset(s) == multiset(names)
    ensures Distinct(s)
  {
    forall i, j | 0 <= i < j < |s| ensures s[i] != s[j] {
      assert s == s[..i] + [s[i]] + s[i + 1..j] + [s[j]] + s[j + 1..];
      assert multiset(s)[s[i]] == multiset(names)[s[i]] <= 1;
    }
  }

  // ---- Scores ----

  /** The score of one sample; only what aggregation reads. */
  datatype Score = Score(id: string, category: string, correct: bool, valid: bool, latency: real)

  datatype CategoryMetric = CategoryMetric(category: string, total: int, correct: int, invalid: int, accuracy: real)

  datatype Report = Report(
    sha256: string, model: string, template: string, total: int, correct: int, invalid: int,
    accuracy: real, latency: real, categories: seq<CategoryMetric>, sampleIds: seq<string>)

  datatype Change = Change(category: string, baseline: real, candidate: real, delta: real)

  datatype Comparison = Comparison(
    sha256: string, baselineModel: string, candidateModel: string, baseline: real, candidate: real,
    delta: real, relative: Option<real>, reason: Option<string>, changes: seq<Change>)

  datatype Pair = Pair(baseline: Report, candidate: Report, comparison: Comparison)

  /** Rounding to four and to three decimals, the same on every side. */
  datatype Rounding = Rounding(four: real -> real, three: real -> real)

  ghost predicate Sane(rd: Rounding) {
    && (forall x :: 0.0 <= x <= 100.0 ==> 0.0 <= rd.four(x) <= 100.0)
    && (forall x :: -100.0 <= x <= 100.0 ==> -100.0 <= rd.four(x) <= 100.0)
    && (forall x :: 0.0 <= x ==> 0.0 <= rd.three(x))
  }

  /** Rounding half up to a number of decimals, given as a power of ten. */
  function HalfUp(scale: nat, x: real): real
    requires scale > 0
  {
    (x * scale as real + 0.5).Floor as real / scale as real
  }

  /** Decimal rounding keeps these ranges, and so does not rounding at all. */
  lemma DecimalRoundingIsSane()
    ensures Sane(Rounding(x => HalfUp(10_000, x), x => HalfUp(1_000, x)))
    ensures Sane(Rounding(x => x, x => x))
  {
  }

  datatype Aspect = Any | IsCorrect | IsInvalid

  predicate Shows(s: Score, aspect: Aspect) {
    match aspect
    case Any => true
    case IsCorrect => s.correct
    case IsInvalid => !s.valid
  }

  function CountAll(scores: seq<Score>, aspect: Aspect): nat {
    if scores == [] then 0
    else CountAll(scores[..|scores| - 1], aspect) + if Shows(scores[|scores| - 1], aspect) then 1 else 0
  }

  function CountIn(scores: seq<Score>, aspect: Aspect, category: string): nat {
    if scores == [] then 0
    else
      var last := scores[|scores| - 1];
      CountIn(scores[..|scores| - 1], aspect, category) + if last.category == category && Shows(last, aspect) then 1 else 0
  }

  function Latency(scores: seq<Score>): real {
    if scores == [] then 0.0 else Latency(scores[..|scores| - 1]) + scores[|scores| - 1].latency
  }

  function CategoriesOf(scores: seq<Score>): set<string> {
    set i | 0 <= i < |scores| :: scores[i].category
  }

  function IdsOf(scores: seq<Score>): seq<string> {
    seq(|scores|, i requires 0 <= i < |scores| => scores[i].id)
  }

  function Percent(rd: Rounding, numerator: int, denominator: int): real {
    if denominator == 0 then 0.0 else rd.four(numerator as real * 100.0 / denominator as real)
  }

  function MetricOf(rd: Rounding, scores: seq<Score>, category: string): CategoryMetric {
    var (total, correct) := (CountIn(scores, Any, category), CountIn(scores, IsCorrect, category));
    CategoryMetric(category, total, correct, CountIn(scores, IsInvalid, category), Percent(rd, correct, total))
  }

  function MetricsOf(rd: Rounding, scores: seq<Score>, names: seq<string>): seq<CategoryMetric> {
    seq(|names|, i requires 0 <= i < |names| => MetricOf(rd, scores, names[i]))
  }

  ghost function Aggregate(rd: Rounding, scores: seq<Score>, sha256: string, model: string, template: string): Report
    requires scores != []
  {
    var names := SortedSet(CategoriesOf(scores));
    var correct := CountAll(scores, IsCorrect);
    Report(
      sha256, model, template, |scores|, correct, CountAll(scores, IsInvalid), Percent(rd, correct, |scores|),
      rd.three(Latency(scores) / |scores| as real),
      MetricsOf(rd, scores, names), Sorted(IdsOf(scores)))
  }

  function ByCategory(metrics: seq<CategoryMetric>): map<string, CategoryMetric> {
    if metrics == [] then map[]
    else ByCategory(metrics[..|metrics| - 1])[metrics[|metrics| - 1].category := metrics[|metrics| - 1]]
  }

  function Relative(rd: Rounding, delta: real, baseline: real): Option<real> {
    if baseline == 0.0 then None else Some(rd.four(delta * 100.0 / baseline))
  }

  function ChangeOf(rd: Rounding, b: CategoryMetric, c: CategoryMetric, category: string): Change {
    Change(category, b.accuracy, c.accuracy, rd.four(c.accuracy - b.accuracy))
  }

  function ChangesOf(rd: Rounding, bs: map<string, CategoryMetric>, cs: map<string, CategoryMetric>, names: seq<string>): seq<Change>
    requires forall i :: 0 <= i < |names| ==> names[i] in bs && names[i] in cs
  {
    seq(|names|, i requires 0 <= i < |names| => ChangeOf(rd, bs[names[i]], cs[names[i]], names[i]))
  }

  /** The categories that two indexed lists share, sorted. */
  ghost function SharedNames(bs: map<string, CategoryMetric>, cs: map<string, CategoryMetric>): (names: seq<string>)
    ensures forall i :: 0 <= i < |names| ==> names[i] in bs && names[i] in cs
  {
    SortedSetMembers(bs.Keys * cs.Keys);
    SortedSet(bs.Keys * cs.Keys)
  }

  function ReasonFor(b: Report, c: Report): Option<string> {
    if b.sha256 != c.sha256 then Some("fingerprint") else if b.sampleIds != c.sampleIds then Some("samples") else None
  }

  ghost function Compare(rd: Rounding, b: Report, c: Report): Comparison {
    var (bs, cs) := (ByCategory(b.categories), ByCategory(c.categories));
    var delta := rd.four(c.accuracy - b.accuracy);
    Comparison(b.sha256, b.model, c.model, b.accuracy, c.accuracy, delta, Relative(rd, delta, b.accuracy),
               ReasonFor(b, c), ChangesOf(rd, bs, cs, SharedNames(bs, cs)))
  }

  /** What a comparison tells: both percentages, the change from the baseline to the candidate, that change relative to
      the baseline unless this is zero, and why the two are not comparable if they are not. */
  lemma ComparisonsAreOfReports(rd: Rounding, b: Report, c: Report)
    ensures var x := Compare(rd, b, c);
            && x.sha256 == b.sha256 && x.baselineModel == b.model && x.candidateModel == c.model
            && x.baseline == b.accuracy && x.candidate == c.accuracy && x.delta == rd.four(c.accuracy - b.accuracy)
            && (b.accuracy == 0.0 ==> x.relative == None)
            && (b.accuracy != 0.0 ==> x.relative == Some(rd.four(x.delta * 100.0 / b.accuracy)))
            && (b.sha256 != c.sha256 ==> x.reason == Some("fingerprint"))
            && (b.sha256 == c.sha256 && b.sampleIds != c.sampleIds ==> x.reason == Some("samples"))
            && (b.sha256 == c.sha256 && b.sampleIds == c.sampleIds ==> x.reason == None)
            && x.changes == ChangesIn(rd, b.categories, c.categories)
  {
  }

  ghost function ChangesIn(rd: Rounding, b: seq<CategoryMetric>, c: seq<CategoryMetric>): seq<Change> {
    var (bs, cs) := (ByCategory(b), ByCategory(c));
    ChangesOf(rd, bs, cs, SharedNames(bs, cs))
  }

  /** The same change for every category that both reports have, in order. */
  lemma ChangesAreOfSharedCategories(rd: Rounding, bs: map<string, CategoryMetric>, cs: map<string, CategoryMetric>, x: string)
    ensures var names := SharedNames(bs, cs);
            SortedStrictly(names) && (x in names <==> x in bs && x in cs)
    ensures var (names, changes) := (SharedNames(bs, cs), ChangesOf(rd, bs, cs, SharedNames(bs, cs)));
            |changes| == |names| && forall i :: 0 <= i < |names| ==>
              changes[i] == Change(names[i], bs[names[i]].accuracy, cs[names[i]].accuracy,
                                   rd.four(cs[names[i]].accuracy - bs[names[i]].accuracy))
  {
    InOrder(bs.Keys * cs.Keys, x);
  }

  predicate SortedStrictly(names: seq<string>) {
    forall j, k :: 0 <= j < k < |names| ==> LexAtMost(names[j], names[k]) && names[j] != names[k]
  }

  lemma InOrder(names: set<string>, x: string)
    ensures SortedStrictly(SortedSet(names)) && (x in SortedSet(names) <==> x in names)
  {
    SortedSetFacts(names);
  }

  // ---- Counting by category ----

  function SumOver(names: seq<string>, scores: seq<Score>, aspect: Aspect): nat {
    if names == [] then 0
    else SumOver(names[..|names| - 1], scores, aspect) + CountIn(scores, aspect, names[|names| - 1])
  }

  /** The positions of the scores that are wanted. */
  function Which(scores: seq<Score>, wanted: Score -> bool): set<int> {
    set i | 0 <= i < |scores| && wanted(scores[i])
  }

  lemma WhichGrows(scores: seq<Score>, wanted: Score -> bool)
    requires scores != []
    ensures |Which(scores, wanted)| == |Which(scores[..|scores| - 1], wanted)| + if wanted(scores[|scores| - 1]) then 1 else 0
  {
    var (n, init) := (|scores| - 1, scores[..|scores| - 1]);
    assert forall i :: 0 <= i < n ==> init[i] == scores[i];
    assert Which(scores, wanted) == if wanted(scores[n]) then Which(init, wanted) + {n} else Which(init, wanted);
  }

  lemma {:induction false} CountAllIsWhich(scores: seq<Score>, aspect: Aspect, wanted: Score -> bool)
    requires forall x: Score :: wanted(x) <==> (aspect == IsCorrect ==> x.correct) && (aspect == IsInvalid ==> !x.valid)
    ensures CountAll(scores, aspect) == |Which(scores, wanted)|
  {
    if scores != [] {
      CountAllIsWhich(scores[..|scores| - 1], aspect, wanted);
      WhichGrows(scores, wanted);
    }
  }

  lemma {:induction false} CountInIsWhich(scores: seq<Score>, aspect: Aspect, category: string, wanted: Score -> bool)
    requires forall x: Score :: wanted(x) <==>
               x.category == category && (aspect == IsCorrect ==> x.correct) && (aspect == IsInvalid ==> !x.valid)
    ensures CountIn(scores, aspect, category) == |Which(scores, wanted)|
  {
    if scores != [] {
      CountInIsWhich(scores[..|scores| - 1], aspect, category, wanted);
      WhichGrows(scores, wanted);
    }
  }

  /** What a report counts: all scores, the correct ones, and those without a valid answer. */
  lemma ReportsCountScores(rd: Rounding, scores: seq<Score>, sha256: string, model: string, template: string)
    requires scores != []
    ensures var r := Aggregate(rd, scores, sha256, model, template);
            && r.total == |scores| && r.correct == |set i | 0 <= i < |scores| && scores[i].correct|
            && r.invalid == |set i | 0 <= i < |scores| && !scores[i].valid|
            && r.accuracy == rd.four(r.correct as real * 100.0 / r.total as real)
  {
    var correct, invalid := (x: Score) => x.correct, (x: Score) => !x.valid;
    CountAllIsWhich(scores, IsCorrect, correct);
    CountAllIsWhich(scores, IsInvalid, invalid);
    assert Which(scores, correct) == set i | 0 <= i < |scores| && scores[i].correct;
    assert Which(scores, invalid) == set i | 0 <= i < |scores| && !scores[i].valid;
  }

  lemma LatencyAddsUp(scores: seq<Score>, last: Score)
    ensures Latency([]) == 0.0 && Latency(scores + [last]) == Latency(scores) + last.latency
  {
    assert (scores + [last])[..|scores|] == scores;
  }

  /** A report has the mean latency, and every id once for each of its scores, in order. */
  lemma IdsAreSorted(rd: Rounding, scores: seq<Score>, sha256: string, model: string, template: string)
    requires scores != []
    ensures var r := Aggregate(rd, scores, sha256, model, template);
            && r.sha256 == sha256 && r.model == model && r.template == template
            && r.latency == rd.three(Latency(scores) / |scores| as real)
            && multiset(r.sampleIds) == multiset(IdsOf(scores))
            && forall j, k :: 0 <= j < k < |r.sampleIds| ==> LexAtMost(r.sampleIds[j], r.sampleIds[k])
  {
    LexIsTotalOrder();
    Sorting.SortedIsOrdered(LexAtMost, IdsOf(scores));
  }

  function NamesIn(metrics: seq<CategoryMetric>): seq<string> {
    seq(|metrics|, i requires 0 <= i < |metrics| => metrics[i].category)
  }

  /** And one entry for each category that occurs, in order. */
  lemma CategoriesAreSorted(rd: Rounding, scores: seq<Score>, sha256: string, model: string, template: string, x: string)
    requires scores != []
    ensures var metrics := Aggregate(rd, scores, sha256, model, template).categories;
            && SortedStrictly(NamesIn(metrics)) && (x in NamesIn(metrics) <==> exists k :: 0 <= k < |scores| && scores[k].category == x)
            && forall i :: 0 <= i < |metrics| ==> metrics[i] == MetricOf(rd, scores, metrics[i].category)
  {
    var names := SortedSet(CategoriesOf(scores));
    SortedSetFacts(CategoriesOf(scores));
    assert NamesIn(MetricsOf(rd, scores, names)) == names;
    assert x in CategoriesOf(scores) <==> exists k :: 0 <= k < |scores| && scores[k].category == x;
  }

  /** The same within one category. */
  lemma MetricsCountScores(rd: Rounding, scores: seq<Score>, category: string)
    ensures var m := MetricOf(rd, scores, category);
            && m.total == |set i | 0 <= i < |scores| && scores[i].category == category|
            && m.correct == |set i | 0 <= i < |scores| && scores[i].category == category && scores[i].correct|
            && m.invalid == |set i | 0 <= i < |scores| && scores[i].category == category && !scores[i].valid|
            && m.category == category
            && m.accuracy == (if m.total == 0 then 0.0 else rd.four(m.correct as real * 100.0 / m.total as real))
  {
    var all, correct := (x: Score) => x.category == category, (x: Score) => x.category == category && x.correct;
    var invalid := (x: Score) => x.category == category && !x.valid;
    CountInIsWhich(scores, Any, category, all);
    CountInIsWhich(scores, IsCorrect, category, correct);
    CountInIsWhich(scores, IsInvalid, category, invalid);
    assert Which(scores, all) == set i | 0 <= i < |scores| && scores[i].category == category;
    assert Which(scores, correct) == set i | 0 <= i < |scores| && scores[i].category == category && scores[i].correct;
    assert Which(scores, invalid) == set i | 0 <= i < |scores| && scores[i].category == category && !scores[i].valid;
  }

  lemma {:induction false} SumOverNothing(names: seq<string>, aspect: Aspect)
    ensures SumOver(names, [], aspect) == 0
  {
    if names != [] {
      SumOverNothing(names[..|names| - 1], aspect);
    }
  }

  lemma {:induction false} SumOverLast(names: seq<string>, scores: seq<Score>, aspect: Aspect)
    requires scores != [] && Distinct(names)
    ensures var last := scores[|scores| - 1];
            SumOver(names, scores, aspect) == SumOver(names, scores[..|scores| - 1], aspect)
              + if last.category in names && Shows(last, aspect) then 1 else 0
  {
    if names != [] {
      SumOverLast(names[..|names| - 1], scores, aspect);
      assert names == names[..|names| - 1] + [names[|names| - 1]];
    }
  }

  /** Every score is counted under exactly one category. */
  lemma {:induction false} CategoriesSumUp(names: seq<string>, scores: seq<Score>, aspect: Aspect)
    requires Distinct(names) && CategoriesOf(scores) <= set x | x in names
    ensures SumOver(names, scores, aspect) == CountAll(scores, aspect)
  {
    if scores == [] {
      SumOverNothing(names, aspect);
    } else {
      var init := scores[..|scores| - 1];
      assert forall i :: 0 <= i < |init| ==> init[i] == scores[i];
      assert scores[|scores| - 1].category in CategoriesOf(scores);
      CategoriesSumUp(names, init, aspect);
      SumOverLast(names, scores, aspect);
    }
  }

  predicate ScoresSound(scores: seq<Score>) {
    forall i :: 0 <= i < |scores| ==> (scores[i].correct ==> scores[i].valid) && scores[i].latency >= 0.0
  }

  lemma {:induction false} CountsAreSound(scores: seq<Score>, category: string)
    requires ScoresSound(scores)
    ensures CountIn(scores, IsCorrect, category) + CountIn(scores, IsInvalid, category) <= CountIn(scores, Any, category)
    ensures CountAll(scores, IsCorrect) + CountAll(scores, IsInvalid) <= CountAll(scores, Any) == |scores|
    ensures CountIn(scores, Any, category) <= |scores| && Latency(scores) >= 0.0
    ensures category in CategoriesOf(scores) ==> CountIn(scores, Any, category) >= 1
  {
    if scores != [] {
      var (init, last) := (scores[..|scores| - 1], scores[|scores| - 1]);
      assert forall i :: 0 <= i < |init| ==> init[i] == scores[i];
      CountsAreSound(init, category);
      assert scores[|scores| - 1].correct ==> scores[|scores| - 1].valid;
      if category in CategoriesOf(scores) && last.category != category {
        assert category in CategoriesOf(init);
      }
    }
  }

  // ---- Aggregation and comparison as the program runs them ----

  method SortedKeys(names: set<string>) returns (s: seq<string>)
    ensures s == SortedSet(names)
  {
    var listed: seq<string> := [];
    var todo := names;
    while todo != {}
      invariant todo <= names && multiset(listed) == multiset(names - todo)
      decreases todo
    {
      var x :| x in todo;
      assert names - (todo - {x}) == (names - todo) + {x};
      listed := listed + [x];
      todo := todo - {x};
    }
    assert names - todo == names;
    LexIsTotalOrder();
    Sorting.SortingIsOrderFree(LexAtMost, listed, Listed(names));
    s := Sorted(listed);
  }

  method Count(scores: seq<Score>, aspect: Aspect) returns (n: nat)
    ensures n == CountAll(scores, aspect)
  {
    n := 0;
    for i := 0 to |scores|
      invariant n == CountAll(scores[..i], aspect)
    {
      assert scores[..i + 1][..i] == scores[..i];
      if Shows(scores[i], aspect) { n := n + 1; }
    }
    assert scores[..|scores|] == scores;
  }

  /** The scores of each category. */
  ghost predicate Grouped(groups: map<string, seq<Score>>, scores: seq<Score>) {
    && groups.Keys == CategoriesOf(scores)
    && forall name <- groups, aspect :: CountAll(groups[name], aspect) == CountIn(scores, aspect, name)
  }

  lemma {:induction false} NoneInAbsentCategory(scores: seq<Score>, aspect: Aspect, name: string)
    requires name !in CategoriesOf(scores)
    ensures CountIn(scores, aspect, name) == 0
  {
    if scores != [] {
      var init := scores[..|scores| - 1];
      assert scores[|scores| - 1].category in CategoriesOf(scores);
      assert forall i :: 0 <= i < |init| ==> init[i] == scores[i];
      NoneInAbsentCategory(init, aspect, name);
    }
  }

  lemma OneMoreCategory(scores: seq<Score>, x: Score)
    ensures CategoriesOf(scores + [x]) == CategoriesOf(scores) + {x.category}
    ensures forall aspect, name :: CountIn(scores + [x], aspect, name)
              == CountIn(scores, aspect, name) + if x.category == name && Shows(x, aspect) then 1 else 0
    ensures forall aspect :: CountAll(scores + [x], aspect) == CountAll(scores, aspect) + if Shows(x, aspect) then 1 else 0
  {
    var all := scores + [x];
    assert all[..|scores|] == scores && all[|scores|] == x;
    assert forall i :: 0 <= i < |scores| ==> all[i] == scores[i];
  }

  lemma GroupOneMore(groups: map<string, seq<Score>>, scores: seq<Score>, x: Score)
    requires Grouped(groups, scores)
    ensures Grouped(groups[x.category := (if x.category in groups then groups[x.category] else []) + [x]], scores + [x])
  {
    var items := if x.category in groups then groups[x.category] else [];
    var groups' := groups[x.category := items + [x]];
    OneMoreCategory(scores, x);
    OneMoreCategory(items, x);
    forall name <- groups', aspect ensures CountAll(groups'[name], aspect) == CountIn(scores + [x], aspect, name) {
      if name == x.category && x.category !in groups {
        NoneInAbsentCategory(scores, aspect, name);
      }
    }
  }

  method GroupByCategory(scores: seq<Score>) returns (groups: map<string, seq<Score>>)
    ensures Grouped(groups, scores)
  {
    groups := map[];
    for i := 0 to |scores|
      invariant Grouped(groups, scores[..i])
    {
      var x := scores[i];
      GroupOneMore(groups, scores[..i], x);
      assert scores[..i + 1] == scores[..i] + [x];
      groups := groups[x.category := (if x.category in groups then groups[x.category] else []) + [x]];
    }
    assert scores[..|scores|] == scores;
  }

  lemma {:induction false} AnyIsAll(scores: seq<Score>)
    ensures CountAll(scores, Any) == |scores|
  {
    if scores != [] {
      AnyIsAll(scores[..|scores| - 1]);
    }
  }

  method Measure(rd: Rounding, category: string, items: seq<Score>, ghost scores: seq<Score>) returns (m: CategoryMetric)
    requires forall aspect :: CountAll(items, aspect) == CountIn(scores, aspect, category)
    ensures m == MetricOf(rd, scores, category)
  {
    AnyIsAll(items);
    var correct := Count(items, IsCorrect);
    var invalid := Count(items, IsInvalid);
    m := CategoryMetric(category, |items|, correct, invalid, Percent(rd, correct, |items|));
  }

  method MeasureAll(rd: Rounding, groups: map<string, seq<Score>>, names: seq<string>, ghost scores: seq<Score>)
    returns (metrics: seq<CategoryMetric>)
    requires Grouped(groups, scores) && forall i :: 0 <= i < |names| ==> names[i] in groups
    ensures metrics == MetricsOf(rd, scores, names)
  {
    metrics := [];
    for i := 0 to |names|
      invariant |metrics| == i && forall k :: 0 <= k < i ==> metrics[k] == MetricOf(rd, scores, names[k])
    {
      var m := Measure(rd, names[i], groups[names[i]], scores);
      metrics := metrics + [m];
    }
  }

  method MeasureCategories(rd: Rounding, scores: seq<Score>) returns (metrics: seq<CategoryMetric>)
    ensures metrics == MetricsOf(rd, scores, SortedSet(CategoriesOf(scores)))
  {
    var groups := GroupByCategory(scores);
    var names := SortedKeys(groups.Keys);
    SortedSetMembers(groups.Keys);
    metrics := MeasureAll(rd, groups, names, scores);
  }

  method TotalLatency(scores: seq<Score>) returns (sum: real)
    ensures sum == Latency(scores)
  {
    sum := 0.0;
    for i := 0 to |scores|
      invariant sum == Latency(scores[..i])
    {
      assert scores[..i + 1][..i] == scores[..i];
      sum := sum + scores[i].latency;
    }
    assert scores[..|scores|] == scores;
  }

  method AggregateResults(rd: Rounding, scores: seq<Score>, sha256: string, model: string, template: string)
    returns (report: Option<Report>)
    ensures report.None? <==> scores == []
    ensures report.Some? ==> report.value == Aggregate(rd, scores, sha256, model, template)
  {
    if scores == [] { return None; }
    var categories := MeasureCategories(rd, scores);
    var correct := Count(scores, IsCorrect);
    var invalid := Count(scores, IsInvalid);
    var latency := TotalLatency(scores);
    report := Some(Report(
      sha256, model, template, |scores|, correct, invalid, Percent(rd, correct, |scores|),
      rd.three(latency / |scores| as real), categories, Sorted(IdsOf(scores))));
  }

  method IndexByCategory(metrics: seq<CategoryMetric>) returns (found: map<string, CategoryMetric>)
    ensures found == ByCategory(metrics)
  {
    found := map[];
    for i := 0 to |metrics|
      invariant found == ByCategory(metrics[..i])
    {
      assert metrics[..i + 1][..i] == metrics[..i];
      found := found[metrics[i].category := metrics[i]];
    }
    assert metrics[..|metrics|] == metrics;
  }

  method CompareReports(rd: Rounding, b: Report, c: Report) returns (comparison: Comparison)
    ensures comparison == Compare(rd, b, c)
  {
    var reason := None;
    if b.sha256 != c.sha256 {
      reason := Some("fingerprint");
    } else if b.sampleIds != c.sampleIds {
      reason := Some("samples");
    }
    var delta := rd.four(c.accuracy - b.accuracy);
    var relative := RelativeChange(rd, delta, b.accuracy);
    var changes := SharedChanges(rd, b, c);
    comparison := Comparison(b.sha256, b.model, c.model, b.accuracy, c.accuracy, delta, relative, reason, changes);
  }

  method RelativeChange(rd: Rounding, delta: real, baseline: real) returns (relative: Option<real>)
    ensures relative == Relative(rd, delta, baseline)
  {
    relative := if baseline != 0.0 then Some(rd.four(delta * 100.0 / baseline)) else None;
  }

  method SharedChanges(rd: Rounding, b: Report, c: Report) returns (changes: seq<Change>)
    ensures var (bs, cs) := (ByCategory(b.categories), ByCategory(c.categories));
            changes == ChangesOf(rd, bs, cs, SharedNames(bs, cs))
  {
    var bs := IndexByCategory(b.categories);
    var cs := IndexByCategory(c.categories);
    var names := SortedKeys(bs.Keys * cs.Keys);
    assert names == SharedNames(bs, cs);
    changes := CompareCategories(rd, bs, cs, names);
  }

  method CompareCategories(rd: Rounding, bs: map<string, CategoryMetric>, cs: map<string, CategoryMetric>, names: seq<string>)
    returns (changes: seq<Change>)
    requires forall i :: 0 <= i < |names| ==> names[i] in bs && names[i] in cs
    ensures changes == ChangesOf(rd, bs, cs, names)
  {
    changes := [];
    for i := 0 to |names|
      invariant |changes| == i
      invariant forall k :: 0 <= k < i ==> changes[k] == ChangeOf(rd, bs[names[k]], cs[names[k]], names[k])
    {
      var (x, y) := (bs[names[i]], cs[names[i]]);
      changes := changes + [Change(names[i], x.accuracy, y.accuracy, rd.four(y.accuracy - x.accuracy))];
    }
  }

  // ---- Two score lists over the same samples ----

  datatype Key = Key(id: string, category: string)

  function KeysOf(scores: seq<Score>): seq<Key> {
    seq(|scores|, i requires 0 <= i < |scores| => Key(scores[i].id, scores[i].category))
  }

  function Without<T>(s: seq<T>, k: nat): seq<T>
    requires k < |s|
  {
    s[..k] + s[k + 1..]
  }

  lemma {:induction false} CountWithout(scores: seq<Score>, k: nat, category: string)
    requires k < |scores|
    ensures CountIn(scores, Any, category)
         == CountIn(Without(scores, k), Any, category) + if scores[k].category == category then 1 else 0
  {
    if k < |scores| - 1 {
      var init := scores[..|scores| - 1];
      CountWithout(init, k, category);
      assert Without(scores, k)[..|scores| - 2] == Without(init, k);
      assert Without(scores, k)[|scores| - 2] == scores[|scores| - 1];
    } else {
      assert Without(scores, k) == scores[..k];
    }
  }

  lemma WithoutKeepsKeys(scores: seq<Score>, k: nat)
    requires k < |scores|
    ensures KeysOf(Without(scores, k)) == Without(KeysOf(scores), k)
    ensures multiset(KeysOf(Without(scores, k))) == multiset(KeysOf(scores)) - multiset{KeysOf(scores)[k]}
    ensures multiset(IdsOf(Without(scores, k))) == multiset(IdsOf(scores)) - multiset{scores[k].id}
    ensures scores[k].id in IdsOf(scores)
  {
    RemoveOne(KeysOf(scores), k);
    RemoveOne(IdsOf(scores), k);
    assert IdsOf(Without(scores, k)) == Without(IdsOf(scores), k);
    assert IdsOf(scores)[k] == scores[k].id;
  }

  lemma RemoveOne<T>(s: seq<T>, k: nat)
    requires k < |s|
    ensures multiset(Without(s, k)) == multiset(s) - multiset{s[k]}
  {
    assert s == s[..k] + [s[k]] + s[k + 1..];
  }

  lemma SameLength(a: seq<Score>, b: seq<Score>)
    requires multiset(KeysOf(a)) == multiset(KeysOf(b))
    ensures |a| == |b|
  {
    assert |a| == |KeysOf(a)| == |multiset(KeysOf(a))| == |multiset(KeysOf(b))| == |KeysOf(b)| == |b|;
  }

  lemma FindKey(a: seq<Score>, b: seq<Score>, j: nat) returns (k: nat)
    requires multiset(KeysOf(a)) == multiset(KeysOf(b)) && j < |a|
    ensures k < |b| && KeysOf(b)[k] == KeysOf(a)[j] && b[k].id == a[j].id && b[k].category == a[j].category
    ensures multiset(KeysOf(Without(a, j))) == multiset(KeysOf(Without(b, k)))
  {
    assert KeysOf(a)[j] in multiset(KeysOf(a));
    assert KeysOf(a)[j] in KeysOf(b);
    k :| 0 <= k < |b| && KeysOf(b)[k] == KeysOf(a)[j];
    WithoutKeepsKeys(a, j);
    WithoutKeepsKeys(b, k);
  }

  /** The same samples, in whatever order: same ids, and as many samples in each category. */
  lemma {:induction false} SameSamples(a: seq<Score>, b: seq<Score>, category: string)
    requires multiset(KeysOf(a)) == multiset(KeysOf(b))
    ensures |a| == |b| && multiset(IdsOf(a)) == multiset(IdsOf(b))
    ensures CountIn(a, Any, category) == CountIn(b, Any, category)
    decreases |a|
  {
    SameLength(a, b);
    if a == [] {
      assert IdsOf(a) == IdsOf(b) == [];
    } else {
      var k := FindKey(a, b, 0);
      SameSamples(Without(a, 0), Without(b, k), category);
      CountWithout(a, 0, category);
      CountWithout(b, k, category);
      IdsWithout(a, 0);
      IdsWithout(b, k);
    }
  }

  lemma IdsWithout(scores: seq<Score>, k: nat)
    requires k < |scores|
    ensures multiset(IdsOf(scores)) == multiset(IdsOf(Without(scores, k))) + multiset{scores[k].id}
  {
    WithoutKeepsKeys(scores, k);
    assert scores[k].id in multiset(IdsOf(scores));
  }
}
