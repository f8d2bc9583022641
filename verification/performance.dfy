/**
 * Performance budgets: the image-size check, responsive `srcset`, preload
 * and prefetch hints, the page-weight budget score, the performance report
 * and its grade, and the `<script>` tag for a third-party script.
 *
 * Sizes are whole numbers of bytes or kilobytes; durations whole
 * milliseconds; the layout-shift score is counted in thousandths.
 */
module Performance {
  import opened Common

  // ---------------------------------------------------------------------
  // Images
  // ---------------------------------------------------------------------

  /** `Math.round(n / d)`: the nearest integer, halves rounded up. */
  function RoundDiv(n: int, d: nat): (r: int)
    requires d > 0 && d % 2 == 0
    ensures r * d - d / 2 <= n < r * d + d / 2
  {
    (n + d / 2) / d
  }

  datatype ImageContext = Hero | General

  function ImageLimit(c: ImageContext): nat {
    match c
    case Hero => 200 * 1024
    case General => 100 * 1024
  }

  datatype ImageVerdict = ImageVerdict(valid: bool, recommendation: string)

  /** `validateImageSize`: valid exactly when the image is within 200 KB (hero) or 100 KB (other). */
  function ValidateImageSize(sizeInBytes: int, context: ImageContext): (r: ImageVerdict)
    ensures r.valid <==> sizeInBytes <= ImageLimit(context)
    ensures r.valid ==> r.recommendation == "Image size optimal (" + IntToString(RoundDiv(sizeInBytes, 1024)) + " KB)"
    ensures !r.valid ==> r.recommendation == "Image too large (" + IntToString(RoundDiv(sizeInBytes, 1024)) + " KB, max "
                                             + IntToString(RoundDiv(ImageLimit(context), 1024))
                                             + " KB). Compress or use WebP/AVIF."
  {
    var limit := ImageLimit(context);
    var kb := RoundDiv(sizeInBytes, 1024);
    if sizeInBytes <= limit then ImageVerdict(true, "Image size optimal (" + IntToString(kb) + " KB)")
    else ImageVerdict(false, "Image too large (" + IntToString(kb) + " KB, max " + IntToString(RoundDiv(limit, 1024))
                             + " KB). Compress or use WebP/AVIF.")
  }

  /** The limit quoted in the message is the budget in whole kilobytes, and a hero image may be twice as large. */
  lemma ImageLimitsInKb()
    ensures RoundDiv(ImageLimit(Hero), 1024) == 200 && RoundDiv(ImageLimit(General), 1024) == 100
    ensures ImageLimit(Hero) == 2 * ImageLimit(General)
  {
  }

  /** A general image that passes also passes as a hero image. */
  lemma GeneralValidIsHeroValid(sizeInBytes: int)
    ensures ValidateImageSize(sizeInBytes, General).valid ==> ValidateImageSize(sizeInBytes, Hero).valid
  {
  }

  /** `getOptimizedUrl`: no image service is configured, so the URL comes back as given. */
  function GetOptimizedUrl(src: string, width: Option<int>): (r: string)
    ensures r == src
  {
    src
  }

  const DefaultWidths: seq<int> := [640, 768, 1024, 1280, 1536]

  /** One `srcset` candidate per width, in order: the image URL and the width descriptor. */
  function SrcSetEntries(src: string, widths: seq<int>): (r: seq<string>)
    ensures |r| == |widths|
    ensures forall i :: 0 <= i < |r| ==> r[i] == src + " " + IntToString(widths[i]) + "w"
  {
    seq(|widths|, i requires 0 <= i < |widths| => GetOptimizedUrl(src, Some(widths[i])) + " " + IntToString(widths[i]) + "w")
  }

  /** `generateSrcSet`: the candidates joined by ', '; the five default widths when none are given. */
  function GenerateSrcSet(src: string, widths: Option<seq<int>>): (r: string)
    ensures r == Join(SrcSetEntries(src, if widths.Some? then widths.value else DefaultWidths), ", ")
  {
    var ws := if widths.Some? then widths.value else DefaultWidths;
    Join(SrcSetEntries(src, ws), ", ")
  }

  /** Adding a width appends one candidate after a ', '. */
  lemma SrcSetSnoc(src: string, widths: seq<int>, w: int)
    requires |widths| > 0
    ensures GenerateSrcSet(src, Some(widths + [w]))
            == GenerateSrcSet(src, Some(widths)) + ", " + src + " " + IntToString(w) + "w"
  {
    var e := SrcSetEntries(src, widths);
    var e' := SrcSetEntries(src, widths + [w]);
    assert e' == e + [src + " " + IntToString(w) + "w"];
    JoinSnoc(e, src + " " + IntToString(w) + "w", ", ");
  }

  // ---------------------------------------------------------------------
  // Resource hints
  // ---------------------------------------------------------------------

  datatype PageKind = HomePage | PillarPage | DirectoryPage

  datatype Preload = Preload(href: string, kind: string, mimeType: Option<string>, crossOrigin: Option<string>)

  const FontPreload := Preload("/fonts/inter-var.woff2", "font", Some("font/woff2"), Some("anonymous"))
  const HeroPreload := Preload("/images/hero-roundup.webp", "image", None, None)

  /** `getPreloadLinks`: the font always comes first; only a pillar page adds its hero image. */
  method GetPreloadLinks(page: PageKind) returns (links: seq<Preload>)
    ensures |links| >= 1 && links[0] == FontPreload
    ensures page == PillarPage ==> links == [FontPreload, HeroPreload]
    ensures page != PillarPage ==> links == [FontPreload]
  {
    links := [];
    links := links + [Preload("/fonts/inter-var.woff2", "font", Some("font/woff2"), Some("anonymous"))];
    if page == PillarPage {
      links := links + [Preload("/images/hero-roundup.webp", "image", None, None)];
    }
  }

  datatype CurrentPage = CurrentPage(pageType: PrefetchType, caseSlug: Option<string>, state: Option<string>)

  datatype PrefetchType = PillarType | InjuryType | StateType

  /**
   * `getPrefetchLinks`: a pillar page with a case prefetches its first
   * injury page; an injury or state page with both a case and a state
   * prefetches the directory for that state; nothing else is prefetched.
   */
  method GetPrefetchLinks(current: CurrentPage) returns (prefetch: seq<string>)
    ensures |prefetch| <= 1
    ensures current.pageType == PillarType && OptTruthy(current.caseSlug)
            ==> prefetch == ["/cases/" + current.caseSlug.value + "/non-hodgkin-lymphoma/"]
    ensures current.pageType != PillarType && OptTruthy(current.caseSlug) && OptTruthy(current.state)
            ==> prefetch == ["/find/" + current.caseSlug.value + "/" + current.state.value + "/"]
    ensures prefetch == [] <==> !OptTruthy(current.caseSlug) || (current.pageType != PillarType && !OptTruthy(current.state))
  {
    prefetch := [];
    if current.pageType == PillarType && OptTruthy(current.caseSlug) {
      prefetch := prefetch + ["/cases/" + current.caseSlug.value + "/non-hodgkin-lymphoma/"];
    }
    if current.pageType == InjuryType || current.pageType == StateType {
      if OptTruthy(current.caseSlug) && OptTruthy(current.state) {
        prefetch := prefetch + ["/find/" + current.caseSlug.value + "/" + current.state.value + "/"];
      }
    }
  }

  // ---------------------------------------------------------------------
  // Page weight
  // ---------------------------------------------------------------------

  datatype PageMetrics = PageMetrics(htmlSizeKB: int, jsSizeKB: int, cssSizeKB: int, imagesSizeKB: int)

  /** One budget's verdict: whether it is exceeded, the message filed, and the points it costs. */
  datatype Verdict = Verdict(over: bool, message: string, cost: nat)

  /** HTML: at most 120 KB, 15 points. */
  function HtmlBudget(m: PageMetrics): (r: Verdict)
    ensures r.over <==> m.htmlSizeKB > 120
    ensures r.cost == if r.over then 15 else 0
  {
    if m.htmlSizeKB > 120 then Verdict(true, "HTML too large (" + IntToString(m.htmlSizeKB) + " KB, budget: 120 KB)", 15)
    else Verdict(false, "HTML within budget (" + IntToString(m.htmlSizeKB) + " KB / 120 KB)", 0)
  }

  /** JavaScript: at most 150 KB, 20 points. */
  function ScriptBudget(m: PageMetrics): (r: Verdict)
    ensures r.over <==> m.jsSizeKB > 150
    ensures r.cost == if r.over then 20 else 0
  {
    if m.jsSizeKB > 150 then Verdict(true, "JavaScript too large (" + IntToString(m.jsSizeKB) + " KB, budget: 150 KB)", 20)
    else Verdict(false, "JavaScript within budget (" + IntToString(m.jsSizeKB) + " KB / 150 KB)", 0)
  }

  /** CSS: at most 100 KB, 15 points. */
  function StyleBudget(m: PageMetrics): (r: Verdict)
    ensures r.over <==> m.cssSizeKB > 100
    ensures r.cost == if r.over then 15 else 0
  {
    if m.cssSizeKB > 100 then Verdict(true, "CSS too large (" + IntToString(m.cssSizeKB) + " KB, budget: 100 KB)", 15)
    else Verdict(false, "CSS within budget (" + IntToString(m.cssSizeKB) + " KB / 100 KB)", 0)
  }

  /** Images above the fold: at most 400 KB, 10 points. */
  function ImageBudget(m: PageMetrics): (r: Verdict)
    ensures r.over <==> m.imagesSizeKB > 400
    ensures r.cost == if r.over then 10 else 0
  {
    if m.imagesSizeKB > 400 then Verdict(true, "Images too large (" + IntToString(m.imagesSizeKB) + " KB, budget: 400 KB)", 10)
    else Verdict(false, "Images within budget (" + IntToString(m.imagesSizeKB) + " KB / 400 KB)", 0)
  }

  /** The four budgets in the order they are checked. */
  function Budgets(m: PageMetrics): (r: seq<Verdict>)
    ensures |r| == 4
  {
    [HtmlBudget(m)] + [ScriptBudget(m)] + [StyleBudget(m)] + [ImageBudget(m)]
  }

  /** The messages of the verdicts that are (or are not) over budget, in order. */
  function MessagesWhere(vs: seq<Verdict>, over: bool): (r: seq<string>)
    ensures |r| <= |vs|
  {
    if |vs| == 0 then []
    else MessagesWhere(vs[..|vs| - 1], over) + (if vs[|vs| - 1].over == over then [vs[|vs| - 1].message] else [])
  }

  function Penalty(vs: seq<Verdict>): nat {
    if |vs| == 0 then 0 else Penalty(vs[..|vs| - 1]) + vs[|vs| - 1].cost
  }

  /** The lists and score after the verdicts in `done`. */
  ghost predicate WeightTally(done: seq<Verdict>, score: int, issues: seq<string>, passes: seq<string>) {
    issues == MessagesWhere(done, true) && passes == MessagesWhere(done, false) && score == 100 - Penalty(done)
  }

  lemma VerdictSnoc(done: seq<Verdict>, v: Verdict)
    ensures MessagesWhere(done + [v], true) == MessagesWhere(done, true) + (if v.over then [v.message] else [])
    ensures MessagesWhere(done + [v], false) == MessagesWhere(done, false) + (if !v.over then [v.message] else [])
    ensures Penalty(done + [v]) == Penalty(done) + v.cost
  {
    assert (done + [v])[..|done|] == done;
  }

  /**
   * `bundleValidation.validatePageWeight`: each budget files one message, as
   * an issue when exceeded (costing 15, 20, 15 or 10 points) and as a pass
   * otherwise; the score is clamped at 0.
   */
  method ValidatePageWeight(m: PageMetrics) returns (score: int, issues: seq<string>, passes: seq<string>)
    ensures issues == MessagesWhere(Budgets(m), true)
    ensures passes == MessagesWhere(Budgets(m), false)
    ensures score == 100 - Penalty(Budgets(m))
  {
    issues, passes := [], [];
    score := 100;
    ghost var done: seq<Verdict> := [];

    if m.htmlSizeKB > 120 {
      issues := issues + ["HTML too large (" + IntToString(m.htmlSizeKB) + " KB, budget: 120 KB)"];
      score := score - 15;
    } else {
      passes := passes + ["HTML within budget (" + IntToString(m.htmlSizeKB) + " KB / 120 KB)"];
    }
    VerdictSnoc(done, HtmlBudget(m));
    done := done + [HtmlBudget(m)];
    assert WeightTally(done, score, issues, passes);

    if m.jsSizeKB > 150 {
      issues := issues + ["JavaScript too large (" + IntToString(m.jsSizeKB) + " KB, budget: 150 KB)"];
      score := score - 20;
    } else {
      passes := passes + ["JavaScript within budget (" + IntToString(m.jsSizeKB) + " KB / 150 KB)"];
    }
    VerdictSnoc(done, ScriptBudget(m));
    done := done + [ScriptBudget(m)];
    assert WeightTally(done, score, issues, passes);

    if m.cssSizeKB > 100 {
      issues := issues + ["CSS too large (" + IntToString(m.cssSizeKB) + " KB, budget: 100 KB)"];
      score := score - 15;
    } else {
      passes := passes + ["CSS within budget (" + IntToString(m.cssSizeKB) + " KB / 100 KB)"];
    }
    VerdictSnoc(done, StyleBudget(m));
    done := done + [StyleBudget(m)];
    assert WeightTally(done, score, issues, passes);

    if m.imagesSizeKB > 400 {
      issues := issues + ["Images too large (" + IntToString(m.imagesSizeKB) + " KB, budget: 400 KB)"];
      score := score - 10;
    } else {
      passes := passes + ["Images within budget (" + IntToString(m.imagesSizeKB) + " KB / 400 KB)"];
    }
    VerdictSnoc(done, ImageBudget(m));
    done := done + [ImageBudget(m)];
    assert WeightTally(done, score, issues, passes);

    assert done == Budgets(m);
    WeightBounds(m);
    if score < 0 {
      score := 0;
    }
  }

  /** Every budget lands in exactly one of the two lists. */
  lemma {:induction false} VerdictPartition(vs: seq<Verdict>)
    ensures |MessagesWhere(vs, true)| + |MessagesWhere(vs, false)| == |vs|
  {
    if |vs| > 0 {
      VerdictPartition(vs[..|vs| - 1]);
    }
  }

  /** Nothing is deducted exactly when no budget is exceeded. */
  lemma {:induction false} PenaltyZero(vs: seq<Verdict>)
    requires forall i :: 0 <= i < |vs| ==> (vs[i].cost == 0 <==> !vs[i].over)
    ensures Penalty(vs) == 0 <==> MessagesWhere(vs, true) == []
  {
    if |vs| > 0 {
      var prev := vs[..|vs| - 1];
      assert forall i :: 0 <= i < |prev| ==> prev[i] == vs[i];
      PenaltyZero(prev);
    }
  }

  /**
   * The page-weight score lies in [40, 100], so the clamp never applies; it is
   * 100 exactly when there is no issue; the four budgets always file four
   * messages between them.
   */
  lemma WeightBounds(m: PageMetrics)
    ensures 40 <= 100 - Penalty(Budgets(m)) <= 100
    ensures Penalty(Budgets(m)) == 0 <==> MessagesWhere(Budgets(m), true) == []
    ensures |MessagesWhere(Budgets(m), true)| + |MessagesWhere(Budgets(m), false)| == 4
  {
    BudgetPenalty(m);
    PenaltyZero(Budgets(m));
    VerdictPartition(Budgets(m));
  }

  /** The penalty of the four budgets is the sum of their costs. */
  lemma BudgetPenalty(m: PageMetrics)
    ensures Penalty(Budgets(m)) == HtmlBudget(m).cost + ScriptBudget(m).cost + StyleBudget(m).cost + ImageBudget(m).cost
  {
    var v0, v1, v2, v3 := HtmlBudget(m), ScriptBudget(m), StyleBudget(m), ImageBudget(m);
    PenaltySnoc([], v0);
    PenaltySnoc([v0], v1);
    PenaltySnoc([v0, v1], v2);
    PenaltySnoc([v0, v1, v2], v3);
    assert [v0] == [] + [v0] && [v0, v1] == [v0] + [v1] && [v0, v1, v2] == [v0, v1] + [v2];
    assert Budgets(m) == [v0, v1, v2] + [v3];
  }

  lemma PenaltySnoc(done: seq<Verdict>, v: Verdict)
    ensures Penalty(done + [v]) == Penalty(done) + v.cost
  {
    assert (done + [v])[..|done|] == done;
  }

  // ---------------------------------------------------------------------
  // Performance report
  // ---------------------------------------------------------------------

  datatype Grade = A | B | C | D | F

  function GradeLetter(g: Grade): string {
    match g
    case A => "A"
    case B => "B"
    case C => "C"
    case D => "D"
    case F => "F"
  }

  /** A from 90, B from 80, C from 70, D from 60, F below. */
  function GradeOf(score: int): (g: Grade)
    ensures g == A <==> score >= 90
    ensures g == B <==> 80 <= score < 90
    ensures g == C <==> 70 <= score < 80
    ensures g == D <==> 60 <= score < 70
    ensures g == F <==> score < 60
  {
    if score >= 90 then A else if score >= 80 then B else if score >= 70 then C else if score >= 60 then D else F
  }

  function GradeRank(g: Grade): nat {
    match g
    case F => 0
    case D => 1
    case C => 2
    case B => 3
    case A => 4
  }

  /** A higher score never earns a lower grade. */
  lemma GradeMonotone(s: int, t: int)
    requires s <= t
    ensures GradeRank(GradeOf(s)) <= GradeRank(GradeOf(t))
  {
  }

  datatype VitalsInput = VitalsInput(lcpMs: Option<int>, clsThousandths: Option<int>, inpMs: Option<int>)

  datatype Vital = Vital(value: int, target: int, pass: bool)

  datatype Vitals = Vitals(lcp: Vital, cls: Vital, inp: Vital)

  /** The vitals block, present only when all three measurements are truthy. */
  function CoreWebVitals(v: VitalsInput): (r: Option<Vitals>)
    ensures r.Some? <==> IntTruthy(v.lcpMs) && IntTruthy(v.clsThousandths) && IntTruthy(v.inpMs)
    ensures r.Some? ==> r.value.lcp.pass == (v.lcpMs.value <= 2500)
                        && r.value.cls.pass == (v.clsThousandths.value <= 100)
                        && r.value.inp.pass == (v.inpMs.value <= 200)
  {
    if IntTruthy(v.lcpMs) && IntTruthy(v.clsThousandths) && IntTruthy(v.inpMs) then
      Some(Vitals(Vital(v.lcpMs.value, 2500, v.lcpMs.value <= 2500),
                  Vital(v.clsThousandths.value, 100, v.clsThousandths.value <= 100),
                  Vital(v.inpMs.value, 200, v.inpMs.value <= 200)))
    else None
  }

  predicate IntTruthy(n: Option<int>) {
    n.Some? && n.value != 0
  }

  /** What failing vitals cost: 10 for LCP, 10 for CLS, 5 for INP, and nothing without the vitals block. */
  function VitalsPenalty(v: Option<Vitals>): (r: nat)
    ensures r <= 25
    ensures v.None? ==> r == 0
  {
    if v.None? then 0
    else (if v.value.lcp.pass then 0 else 10) + (if v.value.cls.pass then 0 else 10) + (if v.value.inp.pass then 0 else 5)
  }

  datatype Report = Report(score: int, grade: Grade, summary: string, issues: seq<string>, passes: seq<string>,
                           vitals: Option<Vitals>)

  /**
   * `generatePerformanceReport`: the budget score less the vitals penalty,
   * graded, with a one-line summary counting the budget violations.
   */
  method GeneratePerformanceReport(m: PageMetrics, v: VitalsInput) returns (r: Report)
    ensures r.issues == MessagesWhere(Budgets(m), true) && r.passes == MessagesWhere(Budgets(m), false)
    ensures r.vitals == CoreWebVitals(v)
    ensures r.score == 100 - Penalty(Budgets(m)) - VitalsPenalty(CoreWebVitals(v))
    ensures 15 <= r.score <= 100
    ensures r.grade == GradeOf(r.score)
    ensures r.summary == "Performance Score: " + IntToString(r.score) + "/100 (Grade " + GradeLetter(r.grade) + "). "
                         + NatToString(|r.issues|) + " budget violations."
  {
    var budgetScore, issues, passes := ValidatePageWeight(m);
    var vitals := CoreWebVitals(v);
    var score := budgetScore;
    if vitals.Some? {
      if !vitals.value.lcp.pass { score := score - 10; }
      if !vitals.value.cls.pass { score := score - 10; }
      if !vitals.value.inp.pass { score := score - 5; }
    }
    WeightBounds(m);
    var grade := GradeOf(score);
    var summary := "Performance Score: " + IntToString(score) + "/100 (Grade " + GradeLetter(grade) + "). "
                   + NatToString(|issues|) + " budget violations.";
    r := Report(score, grade, summary, issues, passes, vitals);
  }

  /** Without vitals, a page within every budget is graded A. */
  lemma WithinBudgetsWithoutVitalsIsA(m: PageMetrics, v: VitalsInput)
    requires MessagesWhere(Budgets(m), true) == []
    requires CoreWebVitals(v).None?
    ensures GradeOf(100 - Penalty(Budgets(m)) - VitalsPenalty(CoreWebVitals(v))) == A
  {
    WeightBounds(m);
  }

  // ---------------------------------------------------------------------
  // Third-party scripts
  // ---------------------------------------------------------------------

  datatype Strategy = Defer | Async | LazyOnload

  /**
   * The generated markup: a plain `<script>` tag, or, for lazy loading, the
   * inline loader that appends the script once the browser is idle (kept as
   * the values it interpolates).
   */
  datatype ScriptTag = Tag(html: string) | IdleLoader(id: Option<string>, src: string, nonce: Option<string>)

  /** The attribute candidates, an empty string where an attribute is not wanted. */
  function AttributeCandidates(src: string, strategy: Strategy, id: Option<string>, nonce: Option<string>): seq<string> {
    [ "src=\"" + src + "\"",
      if OptTruthy(id) then "id=\"" + id.value + "\"" else "",
      if OptTruthy(nonce) then "nonce=\"" + nonce.value + "\"" else "",
      if strategy == Defer then "defer" else "",
      if strategy == Async then "async" else "" ]
  }

  /** `filter(Boolean)` on strings: the non-empty ones, in order. */
  function NonEmpty(s: seq<string>): (r: seq<string>)
    ensures |r| <= |s|
    ensures forall x :: x in r <==> x in s && x != ""
  {
    if |s| == 0 then []
    else if s[0] != "" then [s[0]] + NonEmpty(s[1..])
    else NonEmpty(s[1..])
  }

  /** The attributes in their fixed order: src, then id and nonce when given, then the loading keyword. */
  function Attributes(src: string, strategy: Strategy, id: Option<string>, nonce: Option<string>): seq<string> {
    ["src=\"" + src + "\""]
    + (if OptTruthy(id) then ["id=\"" + id.value + "\""] else [])
    + (if OptTruthy(nonce) then ["nonce=\"" + nonce.value + "\""] else [])
    + (if strategy == Defer then ["defer"] else if strategy == Async then ["async"] else [])
  }

  lemma NonEmptyCons(x: string, rest: seq<string>)
    ensures NonEmpty([x] + rest) == Keep(x) + NonEmpty(rest)
  {
    assert ([x] + rest)[1..] == rest;
  }

  /** The one-element list of a non-empty string, nothing for the empty one. */
  function Keep(x: string): (r: seq<string>)
    ensures r == [] <==> x == ""
  {
    if x != "" then [x] else []
  }

  /** Filtering five candidates keeps each non-empty one in place. */
  lemma NonEmptyFive(c: seq<string>)
    requires |c| == 5
    ensures NonEmpty(c) == Keep(c[0]) + Keep(c[1]) + Keep(c[2]) + (Keep(c[3]) + Keep(c[4]))
  {
    assert c == [c[0]] + ([c[1]] + ([c[2]] + ([c[3]] + ([c[4]] + []))));
    NonEmptyCons(c[4], []);
    NonEmptyCons(c[3], [c[4]] + []);
    NonEmptyCons(c[2], [c[3]] + ([c[4]] + []));
    NonEmptyCons(c[1], [c[2]] + ([c[3]] + ([c[4]] + [])));
    NonEmptyCons(c[0], [c[1]] + ([c[2]] + ([c[3]] + ([c[4]] + []))));
  }

  /** An optional attribute survives the filter exactly when it was wanted. */
  lemma KeepWhen(wanted: bool, attr: string)
    requires attr != ""
    ensures Keep(if wanted then attr else "") == (if wanted then [attr] else [])
  {
  }

  /** The loading keyword survives the filter for defer and async only. */
  lemma KeepKeyword(strategy: Strategy)
    ensures Keep(if strategy == Defer then "defer" else "") + Keep(if strategy == Async then "async" else "")
         == (if strategy == Defer then ["defer"] else if strategy == Async then ["async"] else [])
  {
  }

  /** Dropping the empty candidates leaves exactly the attributes in their fixed order. */
  lemma AttributesInOrder(src: string, strategy: Strategy, id: Option<string>, nonce: Option<string>)
    ensures NonEmpty(AttributeCandidates(src, strategy, id, nonce)) == Attributes(src, strategy, id, nonce)
  {
    var c := AttributeCandidates(src, strategy, id, nonce);
    NonEmptyFive(c);
    var srcAttr := "src=\"" + src + "\"";
    assert srcAttr != "" by { assert srcAttr[0] == 's'; }
    KeepWhen(OptTruthy(id), if id.Some? then "id=\"" + id.value + "\"" else "id");
    KeepWhen(OptTruthy(nonce), if nonce.Some? then "nonce=\"" + nonce.value + "\"" else "nonce");
    KeepKeyword(strategy);
  }

  /**
   * `generateScriptTag`: a deferred or async script is one tag whose
   * attributes are src, id and nonce when given, then 'defer' or 'async';
   * a lazy script becomes the idle-time loader.
   */
  function GenerateScriptTag(src: string, strategy: Strategy, id: Option<string>, nonce: Option<string>): (r: ScriptTag)
    ensures strategy == LazyOnload <==> r.IdleLoader?
    ensures r.Tag? ==> r.html == "<script " + Join(Attributes(src, strategy, id, nonce), " ") + "></script>"
  {
    AttributesInOrder(src, strategy, id, nonce);
    if strategy == LazyOnload then IdleLoader(id, src, nonce)
    else Tag("<script " + Join(NonEmpty(AttributeCandidates(src, strategy, id, nonce)), " ") + "></script>")
  }
}
