/**
 * The entry page's analysis session (script.js, class RepurposeQuestAI): the input
 * guard, the mock analysis it produces, the `currentAnalysis` slot that gates export
 * and the three views, and the notification type fallbacks.
 */
module Session {
  import opened Common
  import opened Text

  // ---------------------------------------------------------------------------
  // The mock analysis

  const JakStatMarker: string := "jak/stat"

  const RaDescription: string := "Strong JAK/STAT pathway involvement in RA pathogenesis. Existing safety data supports rapid clinical development."
  const IbdDescription: string := "JAK/STAT signaling critical in intestinal inflammation. Preclinical models demonstrate efficacy in colitis."
  const MsDescription: string := "Emerging evidence of JAK/STAT role in neuroinflammation and demyelination. Novel mechanism for MS treatment."

  /** The three opportunities every mock analysis starts from, in this order. */
  function BaseOpportunities(): (opps: seq<Opportunity>)
    ensures |opps| == 3
  {
    [ Opportunity("Rheumatoid Arthritis", 0.85,
        RaDescription,
        ["High Priority", "Fast Track Potential", "Large Market"]),
      Opportunity("Inflammatory Bowel Disease", 0.78,
        IbdDescription,
        ["Medium Priority", "Orphan Drug Potential", "Unmet Need"]),
      Opportunity("Multiple Sclerosis", 0.72,
        MsDescription,
        ["Innovative", "High Risk/Reward", "Patent Opportunity"]) ]
  }

  /** `Math.min(0.95, confidence + 0.1)` */
  function Bump(c: real): (r: real)
    ensures r <= 0.95
    ensures c <= 0.85 ==> r == c + 0.1
    ensures c <= 0.95 ==> c <= r
    ensures c > 0.85 ==> r == 0.95
  {
    Min(0.95, c + 0.1)
  }

  /** Whether the target pathway triggers the confidence bump: `target.toLowerCase().includes('jak/stat')`. */
  predicate MentionsJakStat(target: string) {
    Contains(ToLower(target), JakStatMarker)
  }

  /** Every opportunity with its confidence bumped, nothing else changed. */
  function Bumped(opps: seq<Opportunity>): (r: seq<Opportunity>)
    ensures |r| == |opps|
    ensures forall i :: 0 <= i < |opps| ==> r[i] == opps[i].(confidence := Bump(opps[i].confidence))
  {
    seq(|opps|, i requires 0 <= i < |opps| => opps[i].(confidence := Bump(opps[i].confidence)))
  }

  /** The opportunities of the mock analysis for `target`. */
  function MockOpportunities(target: string): seq<Opportunity> {
    if MentionsJakStat(target) then Bumped(BaseOpportunities()) else BaseOpportunities()
  }

  /**
   * Always RA, IBD and MS in that order with their descriptions and tags; each
   * confidence is its base value, bumped by 0.1 (never past 0.95) exactly when the
   * target mentions "jak/stat" in any ASCII letter case (the Kelvin sign also
   * counts as a `K`).
   */
  lemma MockOpportunitiesFacts(target: string)
    ensures |MockOpportunities(target)| == 3
    ensures MockOpportunities(target)[0].disease == "Rheumatoid Arthritis"
    ensures MockOpportunities(target)[1].disease == "Inflammatory Bowel Disease"
    ensures MockOpportunities(target)[2].disease == "Multiple Sclerosis"
    ensures forall i :: 0 <= i < 3 ==>
      var b, m := BaseOpportunities()[i], MockOpportunities(target)[i];
      m.disease == b.disease && m.description == b.description && m.tags == b.tags
      && b.confidence <= m.confidence <= 0.95
      && (m.confidence == (if MentionsJakStat(target) then b.confidence + 0.1 else b.confidence))
  {
    var base := BaseOpportunities();
    assert base[0].confidence == 0.85 && base[1].confidence == 0.78 && base[2].confidence == 0.72;
  }

  /** The random numbers the mock analysis consumes, in the order the code draws them. */
  datatype MockDraw = MockDraw(papers: real, trials: real, expired: real, overlapping: real, whitespace: real)

  predicate MockDrawOk(d: MockDraw) {
    Unit(d.papers) && Unit(d.trials) && Unit(d.expired) && Unit(d.overlapping) && Unit(d.whitespace)
  }

  datatype Phases = Phases(phase1: int, phase2: int, phase3: int)

  /** The phase split of `t` trials: floors of a quarter, 58 per cent and 17 per cent. */
  function PhaseSplit(t: nat): (p: Phases)
    ensures p.phase1 >= 0 && p.phase2 >= 0 && p.phase3 >= 0
    ensures t - 2 <= p.phase1 + p.phase2 + p.phase3 <= t
  {
    var x, y, z := (t as real) * 0.25, (t as real) * 0.58, (t as real) * 0.17;
    assert x + y + z == t as real;
    Phases(x.Floor, y.Floor, z.Floor)
  }

  /** The shares add up to the whole, but the floors can lose trials: 8 splits as 2 + 4 + 1. */
  lemma PhaseSplitCanUndercount()
    ensures PhaseSplit(8) == Phases(2, 4, 1)
  {
  }

  datatype PatentCounts = PatentCounts(expired: int, overlapping: int, whitespace: int)

  /**
   * The deterministic shape of generateMockAnalysis; the timestamp and the fixed
   * literature highlights are not part of it.
   */
  datatype Analysis = Analysis(molecule: string, target: string, paperCount: int, trialCount: nat,
                               phases: Phases, patents: PatentCounts, opportunities: seq<Opportunity>)

  /** generateMockAnalysis, given its random draws. */
  function MockAnalysis(molecule: string, target: string, d: MockDraw): (a: Analysis)
    requires MockDrawOk(d)
    ensures a.molecule == molecule && a.target == target
    ensures 150 <= a.paperCount <= 349 && 8 <= a.trialCount <= 22
    ensures a.phases == PhaseSplit(a.trialCount)
    ensures 5 <= a.patents.expired <= 14 && 10 <= a.patents.overlapping <= 29 && 2 <= a.patents.whitespace <= 6
    ensures a.opportunities == MockOpportunities(target)
  {
    var trials := RandomBelow(d.trials, 15) + 8;
    Analysis(molecule, target, RandomBelow(d.papers, 200) + 150, trials, PhaseSplit(trials),
             PatentCounts(RandomBelow(d.expired, 10) + 5, RandomBelow(d.overlapping, 20) + 10,
                          RandomBelow(d.whitespace, 5) + 2),
             MockOpportunities(target))
  }

  /** generateMockAnalysis as written: the fixed list, then a `forEach` bumping each confidence in place. */
  method GenerateMockAnalysis(molecule: string, target: string, d: MockDraw) returns (a: Analysis)
    requires MockDrawOk(d)
    ensures a == MockAnalysis(molecule, target, d)
  {
    var base := BaseOpportunities();
    var opps := base;
    if Contains(ToLower(target), JakStatMarker) {
      var bumped := Bumped(base);
      var i := 0;
      while i < |opps|
        invariant 0 <= i <= |opps| == 3
        invariant forall k :: 0 <= k < 3 ==> opps[k] == if k < i then bumped[k] else base[k]
      {
        opps := opps[i := opps[i].(confidence := Bump(opps[i].confidence))];
        i := i + 1;
      }
      assert opps == bumped;
    }
    var trials := RandomBelow(d.trials, 15) + 8;
    a := Analysis(molecule, target, RandomBelow(d.papers, 200) + 150, trials, PhaseSplit(trials),
                  PatentCounts(RandomBelow(d.expired, 10) + 5, RandomBelow(d.overlapping, 20) + 10,
                               RandomBelow(d.whitespace, 5) + 2),
                  opps);
  }

  /** A target naming the pathway in capitals still triggers the bump. */
  lemma CapitalisedTargetBumps()
    ensures MentionsJakStat("JAK/STAT")
    ensures MockOpportunities("JAK/STAT")[0].confidence == 0.95
    ensures MockOpportunities("JAK/STAT")[1].confidence == 0.88
    ensures MockOpportunities("JAK/STAT")[2].confidence == 0.82
  {
    assert ToLower("JAK/STAT") == JakStatMarker;
    assert OccursAt(ToLower("JAK/STAT"), JakStatMarker, 0);
    MockOpportunitiesFacts("JAK/STAT");
    assert BaseOpportunities()[0].confidence == 0.85;
  }

  /** The Kelvin sign U+212A lower-cases to `k`, so it spells the pathway too. */
  lemma KelvinSignTargetBumps()
    ensures MentionsJakStat("JA\U{212A}/STAT")
    ensures MockOpportunities("JA\U{212A}/STAT") == Bumped(BaseOpportunities())
  {
    assert ToLower("JA\U{212A}/STAT") == JakStatMarker;
    assert OccursAt(ToLower("JA\U{212A}/STAT"), JakStatMarker, 0);
  }

  // ---------------------------------------------------------------------------
  // Notifications

  datatype Kind = Success | Failure | Info

  /** The lookup both tables share: a type without its own entry falls back to info. */
  function KindOf(kind: string): (k: Kind)
    ensures k == Success <==> kind == "success"
    ensures k == Failure <==> kind == "error"
    ensures k == Info <==> kind != "success" && kind != "error"
  {
    if kind == "success" then Success else if kind == "error" then Failure else Info
  }

  function IconOf(k: Kind): string {
    match k
    case Success => "fa-check-circle"
    case Failure => "fa-exclamation-circle"
    case Info => "fa-info-circle"
  }

  function BackgroundOf(k: Kind): string {
    match k
    case Success => "linear-gradient(135deg, #27ae60, #2ecc71)"
    case Failure => "linear-gradient(135deg, #e74c3c, #c0392b)"
    case Info => "linear-gradient(135deg, #3498db, #2980b9)"
  }

  /** getNotificationIcon */
  function NotificationIcon(kind: string): string {
    IconOf(KindOf(kind))
  }

  /** The background colour showNotification picks. */
  function NotificationBackground(kind: string): string {
    BackgroundOf(KindOf(kind))
  }

  /**
   * An unknown notification type is shown exactly like an info one, and the three
   * known types are told apart by both icon and colour.
   */
  lemma UnknownKindFallsBackToInfo(kind: string)
    ensures kind != "success" && kind != "error" ==>
      NotificationIcon(kind) == NotificationIcon("info") && NotificationBackground(kind) == NotificationBackground("info")
    ensures forall a, b :: a != b ==> IconOf(a) != IconOf(b) && BackgroundOf(a) != BackgroundOf(b)
  {
    assert IconOf(Success)[3] != IconOf(Failure)[3];
    assert BackgroundOf(Success)[25] != BackgroundOf(Failure)[25] && BackgroundOf(Failure)[25] != BackgroundOf(Info)[25];
    assert BackgroundOf(Success)[25] != BackgroundOf(Info)[25];
  }

  datatype Notification = Notification(message: string, kind: string)

  /** The success message of a report export, by whether the PDF could be generated. */
  function ExportedMessage(pdfOk: bool): string {
    if pdfOk then "PDF report exported successfully" else "Report exported successfully"
  }

  /** The three views the entry page can open. */
  datatype View = GraphView | ExplainableView | HeatmapView

  function MissingAnalysisMessage(v: View): string {
    match v
    case GraphView => "Please run an analysis first to view the graph"
    case ExplainableView => "Please run an analysis first to view the XAI interface"
    case HeatmapView => "Please run an analysis first to view the heatmap"
  }

  // ---------------------------------------------------------------------------
  // The session

  class RepurposeQuestAI {
    var currentAnalysis: Option<Analysis>
    /** every notification shown, oldest first */
    var notifications: seq<Notification>
    /** the views opened, oldest first */
    var openedViews: seq<View>
    /** the analyses handed to the report export, oldest first */
    var exported: seq<Analysis>

    constructor ()
      ensures currentAnalysis.None? && notifications == [] && openedViews == [] && exported == []
    {
      currentAnalysis := None;
      notifications, openedViews, exported := [], [], [];
    }

    /**
     * performAnalysis: both trimmed inputs must be non-empty; otherwise an error
     * notification and nothing else. On success the mock analysis of the trimmed
     * inputs becomes the current one.
     */
    method PerformAnalysis(moleculeInput: string, targetInput: string, d: MockDraw)
      requires MockDrawOk(d)
      modifies this`currentAnalysis, this`notifications
      ensures var molecule, target := Trim(moleculeInput), Trim(targetInput);
        if molecule == "" || target == "" then
          currentAnalysis == old(currentAnalysis)
          && notifications == old(notifications) + [Notification("Please enter both molecule name and target pathway", "error")]
        else
          currentAnalysis == Some(MockAnalysis(molecule, target, d)) && notifications == old(notifications)
    {
      var molecule := Trim(moleculeInput);
      var target := Trim(targetInput);
      if molecule == "" || target == "" {
        notifications := notifications + [Notification("Please enter both molecule name and target pathway", "error")];
        return;
      }
      var analysis := GenerateMockAnalysis(molecule, target, d);
      currentAnalysis := Some(analysis);
    }

    /**
     * exportReport: without an analysis only an error notification. Otherwise the
     * report of the current analysis is exported, as a PDF when the PDF library
     * succeeds (`pdfOk`) and as a plain-text download when it throws; either way a
     * success notification follows.
     */
    method ExportReport(pdfOk: bool)
      modifies this`notifications, this`exported
      ensures currentAnalysis.None? ==>
        exported == old(exported) && notifications == old(notifications) + [Notification("No analysis data to export", "error")]
      ensures currentAnalysis.Some? ==>
        exported == old(exported) + [currentAnalysis.value]
        && notifications == old(notifications) + [Notification(ExportedMessage(pdfOk), "success")]
    {
      if currentAnalysis.None? {
        notifications := notifications + [Notification("No analysis data to export", "error")];
        return;
      }
      exported := exported + [currentAnalysis.value];
      notifications := notifications + [Notification(ExportedMessage(pdfOk), "success")];
    }

    /** openGraph, openXAI and openHeatmap: the same gate, each with its own message. */
    method OpenView(v: View)
      modifies this`notifications, this`openedViews
      ensures currentAnalysis.None? ==>
        openedViews == old(openedViews) && notifications == old(notifications) + [Notification(MissingAnalysisMessage(v), "error")]
      ensures currentAnalysis.Some? ==> openedViews == old(openedViews) + [v] && notifications == old(notifications)
    {
      if currentAnalysis.None? {
        notifications := notifications + [Notification(MissingAnalysisMessage(v), "error")];
        return;
      }
      openedViews := openedViews + [v];
    }

    /** resetAnalysis: forget the current analysis and say so. */
    method ResetAnalysis()
      modifies this`currentAnalysis, this`notifications
      ensures currentAnalysis.None?
      ensures notifications == old(notifications) + [Notification("Ready for new analysis", "info")]
    {
      currentAnalysis := None;
      notifications := notifications + [Notification("Ready for new analysis", "info")];
    }
  }
}
