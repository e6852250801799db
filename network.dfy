/**
 * The network view (graph.js, class NetworkVisualization): the molecule, the pathway
 * it acts on and one disease per opportunity, joined as a chain molecule - pathway -
 * disease; edge strength classes from the raw confidence; a disease-only click
 * highlight; zoom buttons; drag pinning.
 */
module Network {
  import opened Common
  import opened Text
  import opened Graphs

  datatype NetNode = NetNode(id: string, name: string, kind: NodeType, evidence: real,
                             publications: nat, trials: nat, patents: nat, tags: Option<seq<string>>)

  datatype NetEdge = NetEdge(source: string, target: string, strength: Strength, evidence: real, publications: int)

  const MoleculeId: string := "molecule"
  const PathwayId: string := "pathway"

  /** `value || fallback` on an optional string. */
  function LabelOr(value: Option<string>, fallback: string): (r: string)
    ensures Truthy(value) ==> r == value.value
    ensures !Truthy(value) ==> r == fallback
  {
    if Truthy(value) then value.value else fallback
  }

  function MoleculeNode(p: Payload): NetNode {
    NetNode(MoleculeId, LabelOr(p.molecule, "Molecule X"), Molecule, 0.95, 247, 12, 8, None)
  }

  function PathwayNode(p: Payload): NetNode {
    NetNode(PathwayId, LabelOr(p.target, "JAK/STAT Pathway"), Pathway, 0.88, 189, 8, 15, None)
  }

  /** The three random numbers a disease node consumes: publications, trials, patents. */
  datatype DiseaseDraw = DiseaseDraw(publications: real, trials: real, patents: real)

  predicate DrawOk(d: DiseaseDraw) {
    Unit(d.publications) && Unit(d.trials) && Unit(d.patents)
  }

  predicate DrawsOk(draws: seq<DiseaseDraw>) {
    forall i :: 0 <= i < |draws| ==> DrawOk(draws[i])
  }

  /**
   * The node of opportunity i: its disease as label, its confidence as evidence score,
   * illustrative counts drawn at random, its tags.
   */
  function DiseaseNode(i: nat, opp: Opportunity, d: DiseaseDraw): (n: NetNode)
    requires DrawOk(d)
    ensures n.id == DiseaseId(i) && n.name == opp.disease && n.kind == Disease
    ensures n.evidence == opp.confidence && n.tags == Some(opp.tags)
    ensures 20 <= n.publications <= 69 && 1 <= n.trials <= 5 && 1 <= n.patents <= 3
  {
    NetNode(DiseaseId(i), opp.disease, Disease, opp.confidence,
            RandomBelow(d.publications, 50) + 20, RandomBelow(d.trials, 5) + 1,
            RandomBelow(d.patents, 3) + 1, Some(opp.tags))
  }

  function DiseaseNodes(opps: seq<Opportunity>, draws: seq<DiseaseDraw>): (ns: seq<NetNode>)
    requires |draws| == |opps| && DrawsOk(draws)
    ensures |ns| == |opps|
  {
    seq(|opps|, i requires 0 <= i < |opps| => DiseaseNode(i, opps[i], draws[i]))
  }

  /** createNetworkData's node list. */
  function NetworkNodes(p: Payload, draws: seq<DiseaseDraw>): seq<NetNode>
    requires |draws| == |p.opportunities| && DrawsOk(draws)
  {
    [MoleculeNode(p), PathwayNode(p)] + DiseaseNodes(p.opportunities, draws)
  }

  /** The strength class of a pathway-to-disease edge, from the raw confidence. */
  function ConfidenceStrength(c: real): (s: Strength)
    ensures s == Strong <==> c >= 0.8
    ensures s == Moderate <==> 0.7 <= c < 0.8
    ensures s == Weak <==> c < 0.7
  {
    if c >= 0.8 then Strong else if c >= 0.7 then Moderate else Weak
  }

  /** A higher confidence never yields a weaker class. */
  lemma ConfidenceStrengthMonotone(a: real, b: real)
    requires a <= b
    ensures Rank(ConfidenceStrength(a)) <= Rank(ConfidenceStrength(b))
  {
  }

  /** `Math.floor(confidence * 40) + 10` */
  function EdgePublications(c: real): (n: int)
    ensures 0.0 <= c <= 1.0 ==> 10 <= n <= 50
    ensures n <= 50 ==> c < 1.025
  {
    (c * 40.0).Floor + 10
  }

  lemma EdgePublicationsMonotone(a: real, b: real)
    requires a <= b
    ensures EdgePublications(a) <= EdgePublications(b)
  {
    assert a * 40.0 <= b * 40.0;
  }

  /** The fixed molecule-to-pathway edge. */
  const Backbone: NetEdge := NetEdge(MoleculeId, PathwayId, Strong, 0.92, 156)

  function DiseaseEdge(i: nat, opp: Opportunity): NetEdge {
    NetEdge(PathwayId, DiseaseId(i), ConfidenceStrength(opp.confidence), opp.confidence,
            EdgePublications(opp.confidence))
  }

  function DiseaseEdges(opps: seq<Opportunity>): (es: seq<NetEdge>)
    ensures |es| == |opps|
  {
    seq(|opps|, i requires 0 <= i < |opps| => DiseaseEdge(i, opps[i]))
  }

  /** createNetworkData's edge list. */
  function NetworkEdges(opps: seq<Opportunity>): seq<NetEdge> {
    [Backbone] + DiseaseEdges(opps)
  }

  function NodeIds(nodes: seq<NetNode>): (ids: seq<string>)
    ensures |ids| == |nodes| && forall k :: 0 <= k < |nodes| ==> ids[k] == nodes[k].id
  {
    seq(|nodes|, k requires 0 <= k < |nodes| => nodes[k].id)
  }

  function EdgeLinks(edges: seq<NetEdge>): (links: seq<Link>)
    ensures |links| == |edges| && forall j :: 0 <= j < |edges| ==> links[j] == Link(edges[j].source, edges[j].target)
  {
    seq(|edges|, j requires 0 <= j < |edges| => Link(edges[j].source, edges[j].target))
  }

  /** The id at position a of the node list: molecule, pathway, then the diseases in order. */
  function NetId(a: nat): string {
    if a == 0 then MoleculeId else if a == 1 then PathwayId else DiseaseId(a - 2)
  }

  lemma NetIdDistinct(a: nat, b: nat)
    requires a != b
    ensures NetId(a) != NetId(b)
  {
    if a >= 2 && b >= 2 {
      DiseaseIdInjective(a - 2, b - 2);
    } else {
      if a >= 2 { DiseaseIdStartsWithD(a - 2); }
      if b >= 2 { DiseaseIdStartsWithD(b - 2); }
      assert NetId(a)[0] != NetId(b)[0];
    }
  }

  /**
   * Two fixed nodes and one per opportunity; one fixed edge and one per opportunity;
   * node a carries NetId(a), and edge 1 + i runs from the pathway to disease i.
   */
  lemma NetworkShape(p: Payload, draws: seq<DiseaseDraw>)
    requires |draws| == |p.opportunities| && DrawsOk(draws)
    ensures |NetworkNodes(p, draws)| == 2 + |p.opportunities|
    ensures |NetworkEdges(p.opportunities)| == 1 + |p.opportunities|
    ensures forall a :: 0 <= a < |NetworkNodes(p, draws)| ==> NetworkNodes(p, draws)[a].id == NetId(a)
    ensures NetworkNodes(p, draws)[0] == MoleculeNode(p) && NetworkNodes(p, draws)[1] == PathwayNode(p)
    ensures forall i :: 0 <= i < |p.opportunities| ==>
      NetworkNodes(p, draws)[2 + i] == DiseaseNode(i, p.opportunities[i], draws[i])
    ensures NetworkEdges(p.opportunities)[0] == Backbone
    ensures forall i :: 0 <= i < |p.opportunities| ==>
      NetworkEdges(p.opportunities)[1 + i] == DiseaseEdge(i, p.opportunities[i])
  {
  }

  /** Node a of the built network carries NetId(a). */
  lemma NetworkIdsAre(p: Payload, draws: seq<DiseaseDraw>)
    requires |draws| == |p.opportunities| && DrawsOk(draws)
    ensures |NodeIds(NetworkNodes(p, draws))| == 2 + |p.opportunities|
    ensures |EdgeLinks(NetworkEdges(p.opportunities))| == 1 + |p.opportunities|
    ensures forall a :: 0 <= a < 2 + |p.opportunities| ==> NodeIds(NetworkNodes(p, draws))[a] == NetId(a)
  {
    var ns := NetworkNodes(p, draws);
    forall a | 0 <= a < 2 + |p.opportunities| ensures NodeIds(ns)[a] == NetId(a) {
      if a >= 2 {
        assert ns[a] == DiseaseNode(a - 2, p.opportunities[a - 2], draws[a - 2]);
      }
    }
  }

  /** Node ids are pairwise distinct, so an id names one node. */
  lemma NetworkIdsDistinct(p: Payload, draws: seq<DiseaseDraw>)
    requires |draws| == |p.opportunities| && DrawsOk(draws)
    ensures forall a, b :: 0 <= a < b < |NetworkNodes(p, draws)| ==>
      NetworkNodes(p, draws)[a].id != NetworkNodes(p, draws)[b].id
  {
    NetworkShape(p, draws);
    forall a, b | 0 <= a < b < |NetworkNodes(p, draws)|
      ensures NetworkNodes(p, draws)[a].id != NetworkNodes(p, draws)[b].id
    {
      NetIdDistinct(a, b);
    }
  }

  /** Every edge ends at nodes of the list: the link force can resolve it. */
  lemma NetworkEndpointsResolve(p: Payload, draws: seq<DiseaseDraw>)
    requires |draws| == |p.opportunities| && DrawsOk(draws)
    ensures forall j :: 0 <= j < |NetworkEdges(p.opportunities)| ==>
      NetworkEdges(p.opportunities)[j].source in NodeIds(NetworkNodes(p, draws))
      && NetworkEdges(p.opportunities)[j].target in NodeIds(NetworkNodes(p, draws))
  {
    NetworkShape(p, draws);
    var ids := NodeIds(NetworkNodes(p, draws));
    forall j | 0 <= j < |NetworkEdges(p.opportunities)|
      ensures NetworkEdges(p.opportunities)[j].source in ids && NetworkEdges(p.opportunities)[j].target in ids
    {
      assert ids[0] == MoleculeId && ids[1] == PathwayId;
      if j > 0 {
        assert ids[j + 1] == DiseaseId(j - 1);
      }
    }
  }

  /**
   * The network is a star around the pathway: every disease edge starts at the
   * pathway, and the only edge into disease i is edge 1 + i.
   */
  lemma EdgesOfDisease(opps: seq<Opportunity>, i: nat)
    requires i < |opps|
    ensures forall j :: 0 <= j < |NetworkEdges(opps)| ==>
      (Incident(EdgeLinks(NetworkEdges(opps))[j], DiseaseId(i)) <==> j == 1 + i)
  {
    var links := EdgeLinks(NetworkEdges(opps));
    forall j | 0 <= j < |NetworkEdges(opps)|
      ensures Incident(links[j], DiseaseId(i)) <==> j == 1 + i
    {
      DiseaseIdStartsWithD(i);
      if j == 0 {
        assert links[j] == Link(MoleculeId, PathwayId);
        assert MoleculeId[0] != DiseaseId(i)[0] && PathwayId[0] != DiseaseId(i)[0];
      } else {
        assert links[j] == Link(PathwayId, DiseaseId(j - 1));
        assert PathwayId[0] != DiseaseId(i)[0];
        DiseaseIdInjective(j - 1, i);
      }
    }
  }

  /** The one-hop neighbourhood of disease i is that disease and the pathway. */
  lemma NeighbourhoodOfDisease(opps: seq<Opportunity>, i: nat, a: nat)
    requires i < |opps| && a < 2 + |opps|
    ensures InNeighbourhood(EdgeLinks(NetworkEdges(opps)), DiseaseId(i), NetId(a)) <==> a == 2 + i || a == 1
  {
    var links := EdgeLinks(NetworkEdges(opps));
    var c := DiseaseId(i);
    assert links[1 + i] == Link(PathwayId, c);
    if a == 1 {
      assert Incident(links[1 + i], c) && Incident(links[1 + i], NetId(a));
    } else if a != 2 + i {
      assert NetId(1) == PathwayId && NetId(2 + i) == c;
      NetIdDistinct(a, 2 + i);
      NetIdDistinct(a, 1);
      EdgesOfDisease(opps, i);
      forall j | 0 <= j < |links| ensures !(Incident(links[j], c) && Incident(links[j], NetId(a))) {
        if Incident(links[j], c) {
          assert links[j] == Link(PathwayId, c);
        }
      }
    }
  }

  /**
   * Clicking disease i highlights exactly that disease and the pathway, and exactly
   * the edge between them, whatever was highlighted before.
   */
  lemma DiseaseClickHighlight(p: Payload, draws: seq<DiseaseDraw>, i: nat)
    requires |draws| == |p.opportunities| && DrawsOk(draws) && i < |p.opportunities|
    ensures var ids, links := NodeIds(NetworkNodes(p, draws)), EdgeLinks(NetworkEdges(p.opportunities));
      NodeMarks(ids, links, DiseaseId(i)) == seq(|ids|, a requires 0 <= a < |ids| => a == 2 + i || a == 1)
      && EdgeMarks(links, DiseaseId(i)) == seq(|links|, j requires 0 <= j < |links| => j == 1 + i)
  {
    var ids, links := NodeIds(NetworkNodes(p, draws)), EdgeLinks(NetworkEdges(p.opportunities));
    NetworkIdsAre(p, draws);
    EdgesOfDisease(p.opportunities, i);
    forall a | 0 <= a < |ids| ensures InNeighbourhood(links, DiseaseId(i), ids[a]) <==> a == 2 + i || a == 1 {
      NeighbourhoodOfDisease(p.opportunities, i, a);
    }
  }

  // ---------------------------------------------------------------------------
  // Drawing constants

  /** Link distance, charge, and collision radius of the force simulation. */
  const LinkDistance: real := 150.0
  const ChargeStrength: real := -300.0
  const CollisionRadius: real := 30.0

  /** Circle radius by node type; any other type gets the default 15. */
  function NodeRadius(t: NodeType): real {
    match t
    case Molecule => 25.0
    case Pathway => 20.0
    case Disease => 15.0
    case Evidence => 15.0
  }

  /** Label offset below the node centre, by node type; default 25. */
  function LabelDy(t: NodeType): real {
    match t
    case Molecule => 35.0
    case Pathway => 30.0
    case Disease => 25.0
    case Evidence => 25.0
  }

  /** Every label is placed 10 pixels below the bottom of its circle. */
  lemma LabelsClearCircles(t: NodeType)
    ensures LabelDy(t) == NodeRadius(t) + 10.0
  {
  }

  // ---------------------------------------------------------------------------
  // Tooltip and zoom

  datatype TooltipRow = Publications | Trials | Patents | Tags

  /**
   * The optional tooltip lines: counts are shown when non-zero (JavaScript
   * truthiness), tags whenever present.
   */
  function TooltipRows(n: NetNode): (rows: seq<TooltipRow>)
    ensures Publications in rows <==> n.publications != 0
    ensures Trials in rows <==> n.trials != 0
    ensures Patents in rows <==> n.patents != 0
    ensures Tags in rows <==> n.tags.Some?
  {
    (if n.publications != 0 then [Publications] else [])
    + (if n.trials != 0 then [Trials] else [])
    + (if n.patents != 0 then [Patents] else [])
    + (if n.tags.Some? then [Tags] else [])
  }

  /** Every node of the built network shows all three counts; only diseases show tags. */
  lemma TooltipRowsOfNetwork(p: Payload, draws: seq<DiseaseDraw>, a: nat)
    requires |draws| == |p.opportunities| && DrawsOk(draws) && a < |NetworkNodes(p, draws)|
    ensures var rows := TooltipRows(NetworkNodes(p, draws)[a]);
      Publications in rows && Trials in rows && Patents in rows
      && (Tags in rows <==> a >= 2)
  {
    NetworkShape(p, draws);
    if a >= 2 {
      var n := DiseaseNode(a - 2, p.opportunities[a - 2], draws[a - 2]);
      assert NetworkNodes(p, draws)[a] == n;
    }
  }

  /** The zoom behaviour's scale extent. */
  const MinScale: real := 0.1
  const MaxScale: real := 4.0

  /** `scaleBy(factor)`: multiply the scale, kept inside the extent. */
  function ScaleBy(k: real, factor: real): (r: real)
    ensures MinScale <= r <= MaxScale
    ensures MinScale <= k * factor <= MaxScale ==> r == k * factor
  {
    Clamp(k * factor, MinScale, MaxScale)
  }

  /** Zooming in then out does not return to the starting scale: 1.3 * 0.7 is 0.91. */
  lemma ZoomInOutDrifts()
    ensures ScaleBy(ScaleBy(1.0, 1.3), 0.7) == 0.91
  {
  }

  /** Zooming in at the upper limit, or out at the lower limit, changes nothing. */
  lemma ZoomSaturates()
    ensures ScaleBy(MaxScale, 1.3) == MaxScale && ScaleBy(MinScale, 0.7) == MinScale
  {
  }

  // ---------------------------------------------------------------------------
  // The view

  class NetworkVisualization {
    var analysisData: Option<Payload>
    var nodes: seq<NetNode>
    var edges: seq<NetEdge>
    var positions: seq<Pos>
    var alphaTarget: real
    /** the `highlighted` class of each node circle and each edge line */
    var nodeHl: seq<bool>
    var edgeHl: seq<bool>
    /** the zoom transform's scale, once its transition has finished */
    var scale: real
    var tooltipShown: bool
    /** the random numbers the current disease nodes were drawn from */
    ghost var draws: seq<DiseaseDraw>

    ghost predicate Valid()
      reads this
    {
      && (analysisData.None? ==> nodes == [] && edges == [])
      && (analysisData.Some? ==>
            |draws| == |analysisData.value.opportunities| && DrawsOk(draws)
            && nodes == NetworkNodes(analysisData.value, draws)
            && edges == NetworkEdges(analysisData.value.opportunities))
      && |positions| == |nodes| && |nodeHl| == |nodes| && |edgeHl| == |edges|
      && MinScale <= scale <= MaxScale
    }

    constructor ()
      ensures Valid()
      ensures analysisData.None? && nodes == [] && edges == [] && scale == 1.0 && !tooltipShown
    {
      analysisData := None;
      nodes, edges, positions := [], [], [];
      alphaTarget := RestAlphaTarget;
      nodeHl, edgeHl := [], [];
      scale := 1.0;
      tooltipShown := false;
      draws := [];
    }

    /**
     * The 'analysis-data' message: rebuild the network and re-render. `diseaseDraws`
     * are the random numbers of the disease nodes, `initial` the positions the force
     * simulation starts the nodes at.
     */
    method OnAnalysisData(payload: Payload, diseaseDraws: seq<DiseaseDraw>, initial: seq<(real, real)>)
      requires Valid()
      requires |diseaseDraws| == |payload.opportunities| && DrawsOk(diseaseDraws)
      requires |initial| == 2 + |payload.opportunities|
      modifies this
      ensures Valid()
      ensures analysisData == Some(payload)
      ensures nodes == NetworkNodes(payload, diseaseDraws) && edges == NetworkEdges(payload.opportunities)
      ensures positions == Placed(initial) && alphaTarget == RestAlphaTarget
      ensures nodeHl == seq(|nodes|, _ => false) && edgeHl == seq(|edges|, _ => false)
      ensures scale == 1.0 && tooltipShown == old(tooltipShown)
    {
      analysisData := Some(payload);
      draws := diseaseDraws;
      CreateNetworkData(payload, diseaseDraws);
      NetworkShape(payload, diseaseDraws);
      RenderGraph(initial);
    }

    /** createNetworkData: the two fixed nodes, then one pushed per opportunity; likewise the edges. */
    method CreateNetworkData(p: Payload, diseaseDraws: seq<DiseaseDraw>)
      requires |diseaseDraws| == |p.opportunities| && DrawsOk(diseaseDraws)
      modifies this`nodes, this`edges
      ensures nodes == NetworkNodes(p, diseaseDraws) && edges == NetworkEdges(p.opportunities)
    {
      var opps := p.opportunities;
      var ns := [MoleculeNode(p), PathwayNode(p)];
      var i := 0;
      while i < |opps|
        invariant 0 <= i <= |opps|
        invariant ns == [MoleculeNode(p), PathwayNode(p)] + DiseaseNodes(opps[..i], diseaseDraws[..i])
      {
        assert DiseaseNodes(opps[..i + 1], diseaseDraws[..i + 1])
            == DiseaseNodes(opps[..i], diseaseDraws[..i]) + [DiseaseNode(i, opps[i], diseaseDraws[i])];
        ns := ns + [DiseaseNode(i, opps[i], diseaseDraws[i])];
        i := i + 1;
      }
      assert opps[..i] == opps && diseaseDraws[..i] == diseaseDraws;
      var es := [Backbone];
      i := 0;
      while i < |opps|
        invariant 0 <= i <= |opps|
        invariant es == [Backbone] + DiseaseEdges(opps[..i])
      {
        assert DiseaseEdges(opps[..i + 1]) == DiseaseEdges(opps[..i]) + [DiseaseEdge(i, opps[i])];
        es := es + [DiseaseEdge(i, opps[i])];
        i := i + 1;
      }
      assert opps[..i] == opps;
      nodes, edges := ns, es;
    }

    /** renderGraph: a fresh drawing, a fresh simulation and a fresh, unzoomed transform. */
    method RenderGraph(initial: seq<(real, real)>)
      requires |initial| == |nodes|
      modifies this`positions, this`alphaTarget, this`nodeHl, this`edgeHl, this`scale
      ensures positions == Placed(initial) && alphaTarget == RestAlphaTarget
      ensures nodeHl == seq(|nodes|, _ => false) && edgeHl == seq(|edges|, _ => false)
      ensures scale == 1.0
    {
      positions := Placed(initial);
      alphaTarget := RestAlphaTarget;
      nodeHl := seq(|nodes|, _ => false);
      edgeHl := seq(|edges|, _ => false);
      scale := 1.0;
    }

    /**
     * handleNodeClick: ignored unless the node is a disease; otherwise the highlight
     * is replaced by the node's one-hop neighbourhood.
     */
    method HandleNodeClick(a: nat)
      requires Valid() && a < |nodes|
      modifies this`nodeHl, this`edgeHl
      ensures Valid()
      ensures nodes[a].kind != Disease ==> nodeHl == old(nodeHl) && edgeHl == old(edgeHl)
      ensures nodes[a].kind == Disease ==>
        nodeHl == NodeMarks(NodeIds(nodes), EdgeLinks(edges), nodes[a].id)
        && edgeHl == EdgeMarks(EdgeLinks(edges), nodes[a].id)
    {
      if nodes[a].kind != Disease {
        return;
      }
      nodeHl, edgeHl := ClickHighlight(nodeHl, edgeHl, NodeIds(nodes), EdgeLinks(edges), nodes[a].id);
    }

    method ShowTooltip()
      modifies this`tooltipShown
      ensures tooltipShown
    {
      tooltipShown := true;
    }

    method HideTooltip()
      modifies this`tooltipShown
      ensures !tooltipShown
    {
      tooltipShown := false;
    }

    /**
     * The reset button: back to the identity transform. The zoom buttons are wired
     * before any data arrives, but they act on the drawing, which exists only once
     * the first analysis has been rendered.
     */
    method ResetZoom()
      requires Valid() && analysisData.Some?
      modifies this`scale
      ensures Valid() && scale == 1.0
    {
      scale := 1.0;
    }

    method ZoomIn()
      requires Valid() && analysisData.Some?
      modifies this`scale
      ensures Valid() && scale == ScaleBy(old(scale), 1.3)
      ensures old(scale) * 1.3 <= MaxScale ==> scale > old(scale)
    {
      scale := ScaleBy(scale, 1.3);
    }

    method ZoomOut()
      requires Valid() && analysisData.Some?
      modifies this`scale
      ensures Valid() && scale == ScaleBy(old(scale), 0.7)
      ensures old(scale) * 0.7 >= MinScale ==> scale < old(scale)
    {
      scale := ScaleBy(scale, 0.7);
    }

    method DragStarted(a: nat, active: bool)
      requires Valid() && a < |nodes|
      modifies this`positions, this`alphaTarget
      ensures Valid()
      ensures positions == old(positions)[a := PinInPlace(old(positions)[a])]
      ensures alphaTarget == AlphaOnDragStart(active, old(alphaTarget))
    {
      alphaTarget := AlphaOnDragStart(active, alphaTarget);
      positions := positions[a := PinInPlace(positions[a])];
    }

    method Dragged(a: nat, x: real, y: real)
      requires Valid() && a < |nodes|
      modifies this`positions
      ensures Valid()
      ensures positions == old(positions)[a := PinAt(old(positions)[a], x, y)]
    {
      positions := positions[a := PinAt(positions[a], x, y)];
    }

    method DragEnded(a: nat, active: bool)
      requires Valid() && a < |nodes|
      modifies this`positions, this`alphaTarget
      ensures Valid()
      ensures positions == old(positions)[a := Unpin(old(positions)[a])]
      ensures alphaTarget == AlphaOnDragEnd(active, old(alphaTarget))
    {
      alphaTarget := AlphaOnDragEnd(active, alphaTarget);
      positions := positions[a := Unpin(positions[a])];
    }
  }
}
