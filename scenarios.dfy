/**
 * What the three views make of the entry page's mock analysis: each view classes
 * the same opportunities with its own thresholds, and the heatmap's factor table
 * knows only one of the three diseases.
 */
module Scenarios {
  import opened Common
  import Graphs
  import EvidenceFlow
  import Network
  import Heatmap
  import Session

  /**
   * The evidence-flow view classes pathway-to-outcome edges on confidence * 0.8 with
   * thresholds 0.7 and 0.4; the network view classes the raw confidence with 0.8 and
   * 0.7. On the mock opportunities the two never agree on all three edges.
   */
  lemma StrengthTiersOnMock(target: string)
    ensures var opps := Session.MockOpportunities(target);
      var flow := seq(3, i requires 0 <= i < 3 => EvidenceFlow.OutcomeEdge(i, opps[i]).strength);
      var net := seq(3, i requires 0 <= i < 3 => Network.DiseaseEdge(i, opps[i]).strength);
      (Session.MentionsJakStat(target) ==>
         flow == [Graphs.Strong, Graphs.Strong, Graphs.Moderate] && net == [Graphs.Strong, Graphs.Strong, Graphs.Strong])
      && (!Session.MentionsJakStat(target) ==>
         flow == [Graphs.Moderate, Graphs.Moderate, Graphs.Moderate] && net == [Graphs.Strong, Graphs.Moderate, Graphs.Moderate])
  {
    var opps := Session.MockOpportunities(target);
    Session.MockOpportunitiesFacts(target);
    var base := Session.BaseOpportunities();
    assert base[0].confidence == 0.85 && base[1].confidence == 0.78 && base[2].confidence == 0.72;
  }

  /** The mock's three diseases are distinct, so the heatmap has one cell per (component, disease). */
  lemma MockHeatmapKeyed(target: string, draws: seq<seq<Heatmap.Draw>>)
    requires Heatmap.DrawsFit(draws, |Heatmap.Components|, 3)
    ensures var ds := Heatmap.Diseases(Session.MockOpportunities(target));
      |Heatmap.HeatmapCells(ds, draws)| == 21 && Heatmap.PairsDetermineCells(Heatmap.HeatmapCells(ds, draws))
  {
    var opps := Session.MockOpportunities(target);
    Session.MockOpportunitiesFacts(target);
    var ds := Heatmap.Diseases(opps);
    assert ds[0][0] == 'R' && ds[1][0] == 'I' && ds[2][0] == 'M';
    assert Heatmap.Distinct(ds);
    Heatmap.HeatmapShape(ds, draws);
    Heatmap.HeatmapPairsDetermineCells(ds, draws);
  }

  /**
   * Of the mock's diseases only Rheumatoid Arthritis is in the factor table: every
   * Inflammatory Bowel Disease and Multiple Sclerosis cell is scored around 0.5, and no
   * disease checkbox can hide those two columns.
   */
  lemma MockDiseasesOutsideFactorTable(component: string, r: real, f: Heatmap.Filters, c: Heatmap.Cell)
    requires Unit(r)
    requires c.disease == "Inflammatory Bowel Disease" || c.disease == "Multiple Sclerosis"
    ensures Heatmap.BaseScore(component, c.disease) == 0.5
    ensures 0.4 <= Heatmap.ImpactScore(component, c.disease, r) < 0.6
    ensures Heatmap.Keep(f, c) <==> Heatmap.TypeFlag(f, c.componentType)
  {
    assert c.disease[0] != 'R' && c.disease[0] != 'V' && c.disease[0] != 'U';
    assert c.disease !in Heatmap.DiseaseFactors();
    Heatmap.KeepExactly(f, c);
  }
}
