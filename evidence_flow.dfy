/**
 * The explainable evidence-flow view (ai.js, class ExplainableAI): a fixed roster of
 * eight evidence sources feeding one pathway hub, which feeds one outcome node per
 * opportunity; a one-hop click highlight; per-category visibility; a flow animator
 * that sends particles along visible edges; drag pinning.
 */
module EvidenceFlow {
  import opened Common
  import opened Text
  import opened Graphs

  /** Evidence categories, plus the category the pathway-to-outcome edges carry. */
  datatype Category = Literature | Trials | Patents | PathwayCategory

  /**
   * A node of the evidence-flow model. The counts a source does not carry
   * (publications, trials, patents) are 0, which the tooltip treats like absent.
   */
  datatype Node = Node(id: string, name: string, kind: NodeType, category: Option<Category>,
                       evidence: real, publications: nat, trials: nat, patents: nat,
                       contribution: real, tags: Option<seq<string>>)

  datatype Edge = Edge(source: string, target: string, strength: Strength,
                       contribution: real, category: Option<Category>)

  function Source(id: string, name: string, category: Category, evidence: real,
                  publications: nat, trials: nat, patents: nat, contribution: real): Node
  {
    Node(id, name, Evidence, Some(category), evidence, publications, trials, patents, contribution, None)
  }

  /** The k-th evidence source of the roster. */
  function RosterAt(k: nat): Node
    requires k < 8
  {
    match k
    case 0 => Source("literature-mechanistic", "Mechanistic Studies", Literature, 0.92, 89, 0, 0, 0.35)
    case 1 => Source("literature-preclinical", "Preclinical Models", Literature, 0.78, 67, 0, 0, 0.28)
    case 2 => Source("literature-clinical", "Clinical Evidence", Literature, 0.71, 45, 0, 0, 0.22)
    case 3 => Source("trials-phase1", "Phase I Trials", Trials, 0.85, 0, 3, 0, 0.25)
    case 4 => Source("trials-phase2", "Phase II Trials", Trials, 0.73, 0, 7, 0, 0.30)
    case 5 => Source("trials-phase3", "Phase III Trials", Trials, 0.68, 0, 2, 0, 0.15)
    case 6 => Source("patents-expired", "Expired Patents", Patents, 0.45, 0, 0, 8, 0.10)
    case _ => Source("patents-overlapping", "Overlapping Patents", Patents, 0.62, 0, 0, 15, 0.18)
  }

  /** The evidence roster; its scores and contribution weights never depend on the payload. */
  const Roster: seq<Node> := [RosterAt(0), RosterAt(1), RosterAt(2), RosterAt(3), RosterAt(4), RosterAt(5), RosterAt(6), RosterAt(7)]

  const PathwayId: string := "pathway"

  const Hub: Node := Node(PathwayId, "JAK/STAT Biological Mediation", Pathway, None, 0.88, 0, 0, 0, 0.0, None)

  function DiseaseNode(i: nat, opp: Opportunity): Node {
    Node(DiseaseId(i), opp.disease, Disease, None, opp.confidence, 0, 0, 0, 0.0, Some(opp.tags))
  }

  function DiseaseNodes(opps: seq<Opportunity>): seq<Node> {
    seq(|opps|, i requires 0 <= i < |opps| => DiseaseNode(i, opps[i]))
  }

  /** The node list createEvidenceFlowData builds: roster, hub, one outcome per opportunity. */
  function FlowNodes(opps: seq<Opportunity>): seq<Node> {
    Roster + [Hub] + DiseaseNodes(opps)
  }

  /** Strength class of an evidence-to-pathway edge. */
  function EvidenceStrength(c: real): (s: Strength)
    ensures s == Strong <==> c >= 0.3
    ensures s == Moderate <==> 0.15 <= c < 0.3
    ensures s == Weak <==> c < 0.15
  {
    if c >= 0.3 then Strong else if c >= 0.15 then Moderate else Weak
  }

  /** Strength class of a pathway-to-outcome edge: its own, higher thresholds. */
  function OutcomeStrength(c: real): (s: Strength)
    ensures s == Strong <==> c >= 0.7
    ensures s == Moderate <==> 0.4 <= c < 0.7
    ensures s == Weak <==> c < 0.4
  {
    if c >= 0.7 then Strong else if c >= 0.4 then Moderate else Weak
  }

  function EvidenceEdge(n: Node): Edge {
    Edge(n.id, PathwayId, EvidenceStrength(n.contribution), n.contribution, n.category)
  }

  /** One edge to the hub for every evidence node, in node order. */
  function EvidenceEdges(nodes: seq<Node>): seq<Edge>
    decreases |nodes|
  {
    if nodes == [] then []
    else (if nodes[0].kind == Evidence then [EvidenceEdge(nodes[0])] else []) + EvidenceEdges(nodes[1..])
  }

  /** The hub passes on 0.8 of the opportunity's confidence. */
  function OutcomeEdge(i: nat, opp: Opportunity): Edge {
    var c := opp.confidence * 0.8;
    Edge(PathwayId, DiseaseId(i), OutcomeStrength(c), c, Some(PathwayCategory))
  }

  function OutcomeEdges(opps: seq<Opportunity>): seq<Edge> {
    seq(|opps|, i requires 0 <= i < |opps| => OutcomeEdge(i, opps[i]))
  }

  /** The edge list createEvidenceFlowData builds. */
  function FlowEdges(opps: seq<Opportunity>): seq<Edge> {
    EvidenceEdges(FlowNodes(opps)) + OutcomeEdges(opps)
  }

  function Ids(nodes: seq<Node>): (ids: seq<string>)
    ensures |ids| == |nodes| && forall k :: 0 <= k < |nodes| ==> ids[k] == nodes[k].id
  {
    seq(|nodes|, k requires 0 <= k < |nodes| => nodes[k].id)
  }

  function Links(edges: seq<Edge>): (links: seq<Link>)
    ensures |links| == |edges|
    ensures forall j :: 0 <= j < |edges| ==> links[j] == Link(edges[j].source, edges[j].target)
  {
    seq(|edges|, j requires 0 <= j < |edges| => Link(edges[j].source, edges[j].target))
  }

  // ---------------------------------------------------------------------------
  // Shape of the built model

  lemma {:induction false} EvidenceEdgesAppend(a: seq<Node>, b: seq<Node>)
    ensures EvidenceEdges(a + b) == EvidenceEdges(a) + EvidenceEdges(b)
    decreases |a|
  {
    if a == [] {
      assert a + b == b;
    } else {
      var head := if a[0].kind == Evidence then [EvidenceEdge(a[0])] else [];
      assert (a + b)[0] == a[0] && (a + b)[1..] == a[1..] + b;
      EvidenceEdgesAppend(a[1..], b);
      calc {
        EvidenceEdges(a + b);
        head + EvidenceEdges(a[1..] + b);
        head + (EvidenceEdges(a[1..]) + EvidenceEdges(b));
        (head + EvidenceEdges(a[1..])) + EvidenceEdges(b);
      }
    }
  }

  lemma {:induction false} EvidenceEdgesOfSources(ns: seq<Node>)
    requires forall k :: 0 <= k < |ns| ==> ns[k].kind == Evidence
    ensures EvidenceEdges(ns) == seq(|ns|, k requires 0 <= k < |ns| => EvidenceEdge(ns[k]))
    decreases |ns|
  {
    if ns != [] {
      EvidenceEdgesOfSources(ns[1..]);
    }
  }

  lemma {:induction false} EvidenceEdgesOfNonSources(ns: seq<Node>)
    requires forall k :: 0 <= k < |ns| ==> ns[k].kind != Evidence
    ensures EvidenceEdges(ns) == []
    decreases |ns|
  {
    if ns != [] {
      EvidenceEdgesOfNonSources(ns[1..]);
    }
  }

  lemma RosterFacts()
    ensures |Roster| == 8
    ensures forall k :: 0 <= k < 8 ==> Roster[k].kind == Evidence && Roster[k].category.Some?
    ensures forall k :: 0 <= k < 8 ==> 13 <= |Roster[k].id| && Roster[k].id[0] in {'l', 't', 'p'}
  {
  }

  /** Position by position, the nodes of the built model. */
  lemma FlowNodesShape(opps: seq<Opportunity>)
    ensures |FlowNodes(opps)| == 9 + |opps|
    ensures forall k :: 0 <= k < 8 ==> FlowNodes(opps)[k] == Roster[k]
    ensures FlowNodes(opps)[8] == Hub
    ensures forall i :: 0 <= i < |opps| ==> FlowNodes(opps)[9 + i] == DiseaseNode(i, opps[i])
  {
  }

  /** Evidence nodes followed by other nodes: one edge per evidence node, in order. */
  lemma EdgesOfSourcesThenOthers(src: seq<Node>, rest: seq<Node>)
    requires forall k :: 0 <= k < |src| ==> src[k].kind == Evidence
    requires forall k :: 0 <= k < |rest| ==> rest[k].kind != Evidence
    ensures EvidenceEdges(src + rest) == seq(|src|, k requires 0 <= k < |src| => EvidenceEdge(src[k]))
  {
    EvidenceEdgesAppend(src, rest);
    EvidenceEdgesOfSources(src);
    EvidenceEdgesOfNonSources(rest);
  }

  /** Position by position, the edges of the built model. */
  lemma FlowEdgesShape(opps: seq<Opportunity>)
    ensures |FlowEdges(opps)| == 8 + |opps|
    ensures forall k :: 0 <= k < 8 ==> FlowEdges(opps)[k] == EvidenceEdge(Roster[k])
    ensures forall i :: 0 <= i < |opps| ==> FlowEdges(opps)[8 + i] == OutcomeEdge(i, opps[i])
  {
    var rest := [Hub] + DiseaseNodes(opps);
    assert FlowNodes(opps) == Roster + rest;
    RosterFacts();
    EdgesOfSourcesThenOthers(Roster, rest);
  }

  /** Position by position, the nodes and edges of the built model. */
  lemma FlowShape(opps: seq<Opportunity>)
    ensures |FlowNodes(opps)| == 9 + |opps|
    ensures forall k :: 0 <= k < 8 ==> FlowNodes(opps)[k] == Roster[k]
    ensures FlowNodes(opps)[8] == Hub
    ensures forall i :: 0 <= i < |opps| ==> FlowNodes(opps)[9 + i] == DiseaseNode(i, opps[i])
    ensures |FlowEdges(opps)| == 8 + |opps|
    ensures forall k :: 0 <= k < 8 ==> FlowEdges(opps)[k] == EvidenceEdge(Roster[k])
    ensures forall i :: 0 <= i < |opps| ==> FlowEdges(opps)[8 + i] == OutcomeEdge(i, opps[i])
  {
    FlowNodesShape(opps);
    FlowEdgesShape(opps);
  }

  /** The id of the node at position `a` of the built model, whatever the payload. */
  function FlowId(a: nat): string {
    if a < 8 then Roster[a].id else if a == 8 then PathwayId else DiseaseId(a - 9)
  }

  /** The ids of the built model, position by position. */
  lemma FlowIds(opps: seq<Opportunity>)
    ensures var ids := Ids(FlowNodes(opps));
      |ids| == 9 + |opps| && forall a :: 0 <= a < |ids| ==> ids[a] == FlowId(a)
  {
    var nodes := FlowNodes(opps);
    FlowNodesShape(opps);
    forall a | 0 <= a < |nodes| ensures nodes[a].id == FlowId(a) {
      if a > 8 {
        assert nodes[9 + (a - 9)] == DiseaseNode(a - 9, opps[a - 9]);
      }
    }
  }

  /** The position of an id in the roster, read off the characters that tell the ids apart. */
  function RosterIndexOf(id: string): nat
    requires |id| >= 13
  {
    if id[0] == 'l' then (if id[11] == 'm' then 0 else if id[11] == 'p' then 1 else 2)
    else if id[0] == 't' then (if id[12] == '1' then 3 else if id[12] == '2' then 4 else 5)
    else if id[8] == 'e' then 6 else 7
  }

  lemma RosterIdIndex(k: nat)
    requires k < 8
    ensures |RosterAt(k).id| >= 13 && RosterIndexOf(RosterAt(k).id) == k
  {
  }

  lemma RosterIdsDistinct()
    ensures forall a, b :: 0 <= a < 8 && 0 <= b < 8 && a != b ==> Roster[a].id != Roster[b].id
  {
    forall a, b | 0 <= a < 8 && 0 <= b < 8 && a != b ensures Roster[a].id != Roster[b].id {
      RosterIdIndex(a);
      RosterIdIndex(b);
    }
  }

  lemma FlowIdDistinct(a: nat, b: nat)
    requires a != b
    ensures FlowId(a) != FlowId(b)
  {
    if a < 8 && b < 8 {
      RosterIdsDistinct();
    } else if a >= 9 && b >= 9 {
      DiseaseIdInjective(a - 9, b - 9);
    } else {
      RosterFacts();
      if a >= 9 {
        DiseaseIdStartsWithD(a - 9);
      }
      if b >= 9 {
        DiseaseIdStartsWithD(b - 9);
      }
      assert |FlowId(a)| != |FlowId(b)| || FlowId(a)[0] != FlowId(b)[0];
    }
  }

  /** No two nodes of the built model share an id, so every edge endpoint names one node. */
  lemma FlowIdsDistinct(opps: seq<Opportunity>)
    ensures var ids := Ids(FlowNodes(opps));
      forall a, b :: 0 <= a < |ids| && 0 <= b < |ids| && a != b ==> ids[a] != ids[b]
  {
    FlowIds(opps);
    forall a: nat, b: nat | a != b ensures FlowId(a) != FlowId(b) {
      FlowIdDistinct(a, b);
    }
  }

  /** The index of a resolvable id; used to look up the endpoints of an edge. */
  lemma IndexOfUnique(ids: seq<string>, k: nat)
    requires k < |ids|
    requires forall a, b :: 0 <= a < |ids| && 0 <= b < |ids| && a != b ==> ids[a] != ids[b]
    ensures IndexOf(ids, ids[k]) == k
  {
  }

  // ---------------------------------------------------------------------------
  // Properties of the built model

  function CountKind(nodes: seq<Node>, t: NodeType): nat
    decreases |nodes|
  {
    if nodes == [] then 0 else (if nodes[0].kind == t then 1 else 0) + CountKind(nodes[1..], t)
  }

  lemma {:induction false} CountKindAppend(a: seq<Node>, b: seq<Node>, t: NodeType)
    ensures CountKind(a + b, t) == CountKind(a, t) + CountKind(b, t)
    decreases |a|
  {
    if a == [] {
      assert a + b == b;
    } else {
      assert (a + b)[1..] == a[1..] + b;
      CountKindAppend(a[1..], b, t);
    }
  }

  /** A list of nodes of one type counts its length for that type and 0 for every other. */
  lemma {:induction false} CountKindUniform(ns: seq<Node>, u: NodeType, t: NodeType)
    requires forall k :: 0 <= k < |ns| ==> ns[k].kind == u
    ensures CountKind(ns, t) == if t == u then |ns| else 0
    decreases |ns|
  {
    if ns != [] {
      CountKindUniform(ns[1..], u, t);
    }
  }

  function ExpectedCount(n: nat, t: NodeType): nat {
    match t
    case Evidence => 8
    case Pathway => 1
    case Disease => n
    case Molecule => 0
  }

  lemma FlowCountOf(opps: seq<Opportunity>, t: NodeType)
    ensures CountKind(FlowNodes(opps), t) == ExpectedCount(|opps|, t)
  {
    RosterFacts();
    CountKindAppend(Roster + [Hub], DiseaseNodes(opps), t);
    CountKindAppend(Roster, [Hub], t);
    CountKindUniform(Roster, Evidence, t);
    CountKindUniform(DiseaseNodes(opps), Disease, t);
  }

  /**
   * For N opportunities: 8 evidence nodes, 1 pathway node, N outcome nodes and no
   * other node, and 8 + N edges.
   */
  lemma FlowCounts(opps: seq<Opportunity>)
    ensures |FlowNodes(opps)| == 9 + |opps| && |FlowEdges(opps)| == 8 + |opps|
    ensures CountKind(FlowNodes(opps), Evidence) == 8
    ensures CountKind(FlowNodes(opps), Pathway) == 1
    ensures CountKind(FlowNodes(opps), Disease) == |opps|
    ensures CountKind(FlowNodes(opps), Molecule) == 0
  {
    FlowShape(opps);
    FlowCountOf(opps, Evidence);
    FlowCountOf(opps, Pathway);
    FlowCountOf(opps, Disease);
    FlowCountOf(opps, Molecule);
  }

  /**
   * Outcome node i is `disease-i`, labelled with the opportunity's disease and scored
   * with its confidence.
   */
  lemma OutcomeNodeFields(opps: seq<Opportunity>, i: nat)
    requires i < |opps|
    ensures var n := FlowNodes(opps)[9 + i];
      n.id == DiseaseId(i) && n.name == opps[i].disease && n.kind == Disease
      && n.evidence == opps[i].confidence && n.contribution == 0.0
  {
    FlowShape(opps);
  }

  /**
   * Each evidence node has exactly one edge, to the hub, carrying its own contribution
   * and category, classed by the 0.30 / 0.15 thresholds.
   */
  lemma EvidenceEdgeOfSource(opps: seq<Opportunity>, k: nat)
    requires k < 8
    ensures |FlowEdges(opps)| == 8 + |opps|
    ensures forall j :: 0 <= j < |FlowEdges(opps)| ==> (FlowEdges(opps)[j].source == Roster[k].id <==> j == k)
    ensures var e := FlowEdges(opps)[k];
      e.target == PathwayId && e.contribution == Roster[k].contribution
      && e.category == Roster[k].category && e.strength == EvidenceStrength(Roster[k].contribution)
  {
    FlowShape(opps);
    forall j | 0 <= j < |FlowEdges(opps)| ensures FlowEdges(opps)[j].source == Roster[k].id <==> j == k {
      if 8 <= j {
        FlowIdDistinct(8, k);
      } else if j != k {
        FlowIdDistinct(j, k);
      }
    }
  }

  /**
   * Of the roster, exactly literature-mechanistic (0.35) and trials-phase2 (0.30) are
   * strong; trials-phase3 (0.15) is moderate and patents-expired (0.10) weak.
   */
  lemma RosterStrengths()
    ensures forall k :: 0 <= k < 8 ==>
      (EvidenceEdge(Roster[k]).strength == Strong <==> k == 0 || k == 4)
    ensures Roster[0].id == "literature-mechanistic" && Roster[4].id == "trials-phase2"
    ensures EvidenceEdge(Roster[5]).strength == Moderate && Roster[5].id == "trials-phase3"
    ensures EvidenceEdge(Roster[6]).strength == Weak && Roster[6].id == "patents-expired"
  {
  }

  /**
   * Opportunity i has exactly one edge, hub to `disease-i`, carrying 0.8 of its
   * confidence under the 'pathway' category; no edge runs from an evidence node to an
   * outcome node.
   */
  lemma OutcomeEdgeOfOpportunity(opps: seq<Opportunity>, i: nat)
    requires i < |opps|
    ensures |FlowEdges(opps)| == 8 + |opps|
    ensures forall j :: 0 <= j < |FlowEdges(opps)| ==> (FlowEdges(opps)[j].target == DiseaseId(i) <==> j == 8 + i)
    ensures var e := FlowEdges(opps)[8 + i];
      e.source == PathwayId && e.contribution == opps[i].confidence * 0.8
      && e.category == Some(PathwayCategory) && e.strength == OutcomeStrength(opps[i].confidence * 0.8)
  {
    FlowShape(opps);
    forall j | 0 <= j < |FlowEdges(opps)| ensures FlowEdges(opps)[j].target == DiseaseId(i) <==> j == 8 + i {
      if j < 8 {
        assert FlowEdges(opps)[j].target == PathwayId;
        FlowIdDistinct(8, 9 + i);
      } else {
        assert FlowEdges(opps)[j] == OutcomeEdge(j - 8, opps[j - 8]);
        DiseaseIdInjective(j - 8, i);
      }
    }
  }

  /** Every edge either enters the hub from an evidence node or leaves it for an outcome. */
  lemma HubIsTheOnlyIntermediate(opps: seq<Opportunity>)
    ensures forall j :: 0 <= j < |FlowEdges(opps)| ==>
      (FlowEdges(opps)[j].target == PathwayId && j < 8) || (FlowEdges(opps)[j].source == PathwayId && 8 <= j)
  {
    FlowShape(opps);
  }

  /** The boundary case: confidence 0.85 gives a 0.68 contribution, which is only moderate. */
  lemma ConfidenceEightyFiveIsModerate()
    ensures OutcomeStrength(0.85 * 0.8) == Moderate && 0.85 * 0.8 == 0.68
  {
  }

  /** Every endpoint of every edge is the id of some node (the edges never dangle). */
  lemma FlowEndpointsResolve(opps: seq<Opportunity>)
    ensures var ids := Ids(FlowNodes(opps));
      forall j :: 0 <= j < |FlowEdges(opps)| ==>
        IndexOf(ids, FlowEdges(opps)[j].source) < |ids| && IndexOf(ids, FlowEdges(opps)[j].target) < |ids|
  {
    FlowShape(opps);
    FlowIds(opps);
    var ids := Ids(FlowNodes(opps));
    forall j | 0 <= j < |FlowEdges(opps)|
      ensures IndexOf(ids, FlowEdges(opps)[j].source) < |ids| && IndexOf(ids, FlowEdges(opps)[j].target) < |ids|
    {
      var e := FlowEdges(opps)[j];
      if j < 8 {
        assert ids[j] == e.source && ids[8] == e.target;
      } else {
        assert ids[8] == e.source && ids[j + 1] == e.target;
      }
    }
  }

  // ---------------------------------------------------------------------------
  // Click highlight on the built model

  /**
   * The built model is a star around position 8: link j < 8 joins node j to the hub,
   * link j >= 8 joins the hub to node j + 1. Clicking a spoke k < 8 of such a star with
   * distinct ids highlights exactly that spoke and the hub.
   */
  lemma StarClick(ids: seq<string>, links: seq<Link>, k: nat)
    requires |ids| == |links| + 1 && 8 < |ids| && k < 8
    requires forall a, b :: 0 <= a < |ids| && 0 <= b < |ids| && a != b ==> ids[a] != ids[b]
    requires forall j :: 0 <= j < 8 ==> links[j] == Link(ids[j], ids[8])
    requires forall j :: 8 <= j < |links| ==> links[j] == Link(ids[8], ids[j + 1])
    ensures NodeMarks(ids, links, ids[k]) == seq(|ids|, m requires 0 <= m < |ids| => m == k || m == 8)
    ensures EdgeMarks(links, ids[k]) == seq(|links|, j requires 0 <= j < |links| => j == k)
  {
    var c := ids[k];
    forall j | 0 <= j < |links| ensures Incident(links[j], c) <==> j == k {
      if j >= 8 {
        assert ids[8] != ids[k] && ids[j + 1] != ids[k];
      } else {
        assert ids[8] != ids[k];
      }
    }
    forall m | 0 <= m < |ids| ensures InNeighbourhood(links, c, ids[m]) <==> m == k || m == 8 {
      if m == 8 {
        assert Incident(links[k], c) && Incident(links[k], ids[m]);
      }
      if InNeighbourhood(links, c, ids[m]) && m != k {
        var j :| 0 <= j < |links| && Incident(links[j], c) && Incident(links[j], ids[m]);
        assert j == k;
        assert ids[m] == ids[8];
      }
    }
  }

  /**
   * Clicking evidence node k highlights exactly that node and the hub, and exactly its
   * one edge, whatever was highlighted before.
   */
  lemma EvidenceClickHighlight(opps: seq<Opportunity>, k: nat)
    requires k < 8
    ensures var ids, links := Ids(FlowNodes(opps)), Links(FlowEdges(opps));
      NodeMarks(ids, links, Roster[k].id) == seq(|ids|, m requires 0 <= m < |ids| => m == k || m == 8)
      && EdgeMarks(links, Roster[k].id) == seq(|links|, j requires 0 <= j < |links| => j == k)
  {
    var ids, links := Ids(FlowNodes(opps)), Links(FlowEdges(opps));
    FlowIds(opps);
    FlowIdsDistinct(opps);
    FlowEdgesShape(opps);
    assert ids[k] == Roster[k].id;
    StarClick(ids, links, k);
  }

  // ---------------------------------------------------------------------------
  // Hover: the outcome tooltip's confidence bucket and key drivers

  datatype Confidence = High | Medium | Low

  function ConfidenceBucket(score: real): (b: Confidence)
    ensures b == High <==> score >= 0.8
    ensures b == Medium <==> 0.6 <= score < 0.8
    ensures b == Low <==> score < 0.6
  {
    if score >= 0.8 then High else if score >= 0.6 then Medium else Low
  }

  predicate SortedByContribution(es: seq<Edge>) {
    forall a, b :: 0 <= a < b < |es| ==> es[a].contribution >= es[b].contribution
  }

  lemma SortedCons(x: Edge, rest: seq<Edge>)
    requires SortedByContribution(rest)
    requires forall y :: y in rest ==> y.contribution <= x.contribution
    ensures SortedByContribution([x] + rest)
  {
    var r := [x] + rest;
    forall a, b | 0 <= a < b < |r| ensures r[a].contribution >= r[b].contribution {
      assert r[b] == rest[b - 1];
      if a > 0 {
        assert r[a] == rest[a - 1];
      }
    }
  }

  /** Inserts `e` before the first edge whose contribution it reaches. */
  function InsertByContribution(e: Edge, es: seq<Edge>): (r: seq<Edge>)
    requires SortedByContribution(es)
    ensures SortedByContribution(r)
    ensures multiset(r) == multiset(es) + multiset{e}
    ensures forall x :: x in r ==> x == e || x in es
    decreases |es|
  {
    if es == [] || es[0].contribution <= e.contribution then
      SortedCons(e, es);
      [e] + es
    else
      var rest := InsertByContribution(e, es[1..]);
      SortedCons(es[0], rest);
      assert es == [es[0]] + es[1..];
      [es[0]] + rest
  }

  /** `sort((a, b) => b.contribution - a.contribution)`: descending by contribution. */
  function SortByContribution(es: seq<Edge>): (r: seq<Edge>)
    ensures SortedByContribution(r)
    ensures multiset(r) == multiset(es)
    ensures forall x :: x in r ==> x in es
    decreases |es|
  {
    if es == [] then []
    else
      assert es == [es[0]] + es[1..];
      InsertByContribution(es[0], SortByContribution(es[1..]))
  }

  /** The edges whose target is the node `id`. */
  function EdgesInto(edges: seq<Edge>, id: string): (r: seq<Edge>)
    ensures IsSubsequence(r, edges)
    ensures forall e :: e in r ==> e in edges && e.target == id
    ensures forall e :: e in edges && e.target == id ==> e in r
    decreases |edges|
  {
    if edges == [] then []
    else
      var rest := EdgesInto(edges[1..], id);
      assert edges == [edges[0]] + edges[1..];
      assert forall e :: e in edges ==> e == edges[0] || e in edges[1..];
      SubsequenceCons(rest, edges[1..], edges[0]);
      if edges[0].target == id then [edges[0]] + rest else rest
  }

  lemma {:induction false} EdgesIntoOne(edges: seq<Edge>, id: string, j0: nat)
    requires j0 < |edges|
    requires forall j :: 0 <= j < |edges| ==> (edges[j].target == id <==> j == j0)
    ensures EdgesInto(edges, id) == [edges[j0]]
    decreases |edges|
  {
    if j0 > 0 {
      EdgesIntoOne(edges[1..], id, j0 - 1);
    } else {
      EdgesIntoNone(edges[1..], id);
    }
  }

  lemma {:induction false} EdgesIntoNone(edges: seq<Edge>, id: string)
    requires forall j :: 0 <= j < |edges| ==> edges[j].target != id
    ensures EdgesInto(edges, id) == []
    decreases |edges|
  {
    if edges != [] {
      EdgesIntoNone(edges[1..], id);
    }
  }

  /** The label of the first node with that id. */
  function LabelOf(nodes: seq<Node>, id: string): string
    requires IndexOf(Ids(nodes), id) < |nodes|
  {
    nodes[IndexOf(Ids(nodes), id)].name
  }

  /**
   * The "Key drivers" line of an outcome tooltip: the source labels of the two
   * highest-contribution edges whose TARGET is the hovered node.
   */
  function KeyDrivers(nodes: seq<Node>, edges: seq<Edge>, id: string): seq<string>
    requires forall e :: e in edges ==> IndexOf(Ids(nodes), e.source) < |nodes|
  {
    var sorted := SortByContribution(EdgesInto(edges, id));
    var top := if |sorted| <= 2 then sorted else sorted[..2];
    seq(|top|, i requires 0 <= i < |top| => LabelOf(nodes, top[i].source))
  }

  /** Every edge of the built model starts at a node of the model. */
  lemma FlowSourcesResolve(opps: seq<Opportunity>)
    ensures forall e :: e in FlowEdges(opps) ==> IndexOf(Ids(FlowNodes(opps)), e.source) < |FlowNodes(opps)|
  {
    FlowEndpointsResolve(opps);
    forall e | e in FlowEdges(opps) ensures IndexOf(Ids(FlowNodes(opps)), e.source) < |FlowNodes(opps)| {
      var j :| 0 <= j < |FlowEdges(opps)| && FlowEdges(opps)[j] == e;
    }
  }

  /** With a single edge into the node, the key drivers are that edge's source alone. */
  lemma KeyDriversOfSingleEdge(nodes: seq<Node>, edges: seq<Edge>, id: string, j0: nat)
    requires forall e :: e in edges ==> IndexOf(Ids(nodes), e.source) < |nodes|
    requires j0 < |edges|
    requires forall j :: 0 <= j < |edges| ==> (edges[j].target == id <==> j == j0)
    ensures KeyDrivers(nodes, edges, id) == [LabelOf(nodes, edges[j0].source)]
  {
    EdgesIntoOne(edges, id, j0);
    var e := edges[j0];
    assert SortByContribution([e]) == [e];
  }

  /** The hub is the node the id 'pathway' resolves to. */
  lemma HubLabel(opps: seq<Opportunity>)
    ensures IndexOf(Ids(FlowNodes(opps)), PathwayId) < |FlowNodes(opps)|
    ensures LabelOf(FlowNodes(opps), PathwayId) == Hub.name
  {
    FlowIds(opps);
    FlowIdsDistinct(opps);
    IndexOfUnique(Ids(FlowNodes(opps)), 8);
    FlowShape(opps);
  }

  /**
   * In the built model the only edge into an outcome comes from the hub, so its
   * "Key drivers" are the hub's label alone, never a ranking of evidence sources.
   */
  lemma KeyDriversOfOutcome(opps: seq<Opportunity>, i: nat)
    requires i < |opps|
    ensures (FlowSourcesResolve(opps);
      KeyDrivers(FlowNodes(opps), FlowEdges(opps), DiseaseId(i)) == [Hub.name])
  {
    FlowSourcesResolve(opps);
    OutcomeEdgeOfOpportunity(opps, i);
    KeyDriversOfSingleEdge(FlowNodes(opps), FlowEdges(opps), DiseaseId(i), 8 + i);
    HubLabel(opps);
  }

  // ---------------------------------------------------------------------------
  // Hover: the edge tooltip's endpoint lookup

  /**
   * An edge endpoint as the hover handlers receive it. The builder stores the id
   * string; once the link force is initialised it holds the node object itself,
   * written here as that node's position in the node list.
   */
  datatype Endpoint = IdText(id: string) | NodeObject(index: nat)

  /** JavaScript's `n.id === endpoint`: a string is never strictly equal to an object. */
  predicate SameAs(id: string, e: Endpoint) {
    e.IdText? && e.id == id
  }

  /** The endpoint the link force leaves in place of the id `id`. */
  function Resolved(nodes: seq<Node>, id: string): Endpoint {
    NodeObject(IndexOf(Ids(nodes), id))
  }

  /** `this.nodes.find(n => n.id === endpoint)` as showEdgeTooltip writes it; None is `undefined`. */
  function FindAsWritten(nodes: seq<Node>, e: Endpoint): Option<Node>
    decreases |nodes|
  {
    if nodes == [] then None
    else if SameAs(nodes[0].id, e) then Some(nodes[0])
    else FindAsWritten(nodes[1..], e)
  }

  /** The lookup as written never finds a resolved endpoint, whatever the nodes. */
  lemma {:induction false} FindResolvedFails(nodes: seq<Node>, i: nat)
    ensures FindAsWritten(nodes, NodeObject(i)) == None
    decreases |nodes|
  {
    if nodes != [] {
      FindResolvedFails(nodes[1..], i);
    }
  }

  /** The Source and Target lines of showEdgeTooltip as written; None is the TypeError on `.label`. */
  function EdgeTooltipAsWritten(nodes: seq<Node>, source: Endpoint, target: Endpoint): Option<(string, string)> {
    match (FindAsWritten(nodes, source), FindAsWritten(nodes, target))
    case (Some(s), Some(t)) => Some((s.name, t.name))
    case _ => None
  }

  /** The id of an endpoint: the string itself, or the `id` of the node object. */
  function EndpointId(nodes: seq<Node>, e: Endpoint): string
    requires e.NodeObject? ==> e.index < |nodes|
  {
    if e.IdText? then e.id else nodes[e.index].id
  }

  /** The corrected lookup, reading the endpoint's own id as showNodeTooltip does (`e.source.id`). */
  function FindEndpoint(nodes: seq<Node>, e: Endpoint): (r: Option<Node>)
    requires e.NodeObject? ==> e.index < |nodes|
    ensures r.Some? ==> r.value in nodes && r.value.id == EndpointId(nodes, e)
    ensures e.NodeObject? ==> r.Some?
  {
    var k := IndexOf(Ids(nodes), EndpointId(nodes, e));
    if k < |nodes| then Some(nodes[k]) else None
  }

  /** The Source and Target lines of the corrected edge tooltip. */
  function EdgeTooltip(nodes: seq<Node>, source: Endpoint, target: Endpoint): Option<(string, string)>
    requires source.NodeObject? ==> source.index < |nodes|
    requires target.NodeObject? ==> target.index < |nodes|
  {
    match (FindEndpoint(nodes, source), FindEndpoint(nodes, target))
    case (Some(s), Some(t)) => Some((s.name, t.name))
    case _ => None
  }

  /**
   * Hovering any edge of the built model, once its endpoints are resolved: the tooltip
   * as written finds neither endpoint and throws.
   */
  lemma EdgeTooltipFailsOnBuiltModel(opps: seq<Opportunity>, j: nat)
    requires j < |FlowEdges(opps)|
    ensures var nodes, e := FlowNodes(opps), FlowEdges(opps)[j];
      EdgeTooltipAsWritten(nodes, Resolved(nodes, e.source), Resolved(nodes, e.target)) == None
  {
    var nodes, e := FlowNodes(opps), FlowEdges(opps)[j];
    FindResolvedFails(nodes, IndexOf(Ids(nodes), e.source));
  }

  /** In a node list with distinct ids, the corrected tooltip of an edge from node a to node b names both. */
  lemma EdgeTooltipBetween(nodes: seq<Node>, a: nat, b: nat)
    requires a < |nodes| && b < |nodes|
    requires var ids := Ids(nodes);
      forall x, y :: 0 <= x < |ids| && 0 <= y < |ids| && x != y ==> ids[x] != ids[y]
    ensures IndexOf(Ids(nodes), nodes[a].id) == a && IndexOf(Ids(nodes), nodes[b].id) == b
    ensures EdgeTooltip(nodes, Resolved(nodes, nodes[a].id), Resolved(nodes, nodes[b].id)) == Some((nodes[a].name, nodes[b].name))
  {
    var ids := Ids(nodes);
    IndexOfUnique(ids, a);
    IndexOfUnique(ids, b);
  }

  /** Hovering evidence edge k: the corrected tooltip names the source and the hub. */
  lemma EdgeTooltipOfEvidenceEdge(opps: seq<Opportunity>, k: nat)
    requires k < 8
    ensures |FlowEdges(opps)| == 8 + |opps|
    ensures var nodes, e := FlowNodes(opps), FlowEdges(opps)[k];
      IndexOf(Ids(nodes), e.source) < |nodes| && IndexOf(Ids(nodes), e.target) < |nodes|
      && EdgeTooltip(nodes, Resolved(nodes, e.source), Resolved(nodes, e.target)) == Some((Roster[k].name, Hub.name))
  {
    FlowEdgesShape(opps);
    var nodes, e := FlowNodes(opps), FlowEdges(opps)[k];
    FlowNodesShape(opps);
    FlowIdsDistinct(opps);
    assert e == EvidenceEdge(Roster[k]) && nodes[k] == Roster[k] && nodes[8] == Hub;
    EdgeTooltipBetween(nodes, k, 8);
  }


  /** Hovering the edge of opportunity i: the corrected tooltip names the hub and the disease. */
  lemma EdgeTooltipOfOutcomeEdge(opps: seq<Opportunity>, i: nat)
    requires i < |opps|
    ensures |FlowEdges(opps)| == 8 + |opps|
    ensures var nodes, e := FlowNodes(opps), FlowEdges(opps)[8 + i];
      IndexOf(Ids(nodes), e.source) < |nodes| && IndexOf(Ids(nodes), e.target) < |nodes|
      && EdgeTooltip(nodes, Resolved(nodes, e.source), Resolved(nodes, e.target)) == Some((Hub.name, opps[i].disease))
  {
    FlowEdgesShape(opps);
    var nodes, e := FlowNodes(opps), FlowEdges(opps)[8 + i];
    FlowNodesShape(opps);
    FlowIdsDistinct(opps);
    assert e == OutcomeEdge(i, opps[i]) && nodes[8] == Hub && nodes[9 + i] == DiseaseNode(i, opps[i]);
    EdgeTooltipBetween(nodes, 8, 9 + i);
  }


  // ---------------------------------------------------------------------------
  // Category visibility

  /** `evidenceStates[category]`: a category that is not a key is falsy. */
  predicate Visible(states: map<Category, bool>, c: Option<Category>) {
    c.Some? && c.value in states && states[c.value]
  }

  predicate IsEvidenceCategory(c: Option<Category>) {
    c == Some(Literature) || c == Some(Trials) || c == Some(Patents)
  }

  /** A node's opacity: an evidence node of a hidden category is ghosted to 0.1. */
  function NodeOpacity(n: Node, states: map<Category, bool>): (o: real)
    ensures o == 1.0 || o == 0.1
    ensures o == 0.1 <==> n.kind == Evidence && !Visible(states, n.category)
  {
    if n.kind == Evidence then (if Visible(states, n.category) then 1.0 else 0.1) else 1.0
  }

  /** An edge's opacity: literature, trials and patents edges follow their flag; others stay 0.6. */
  function EdgeOpacity(e: Edge, states: map<Category, bool>): (o: real)
    ensures o == 0.6 || o == 0.1
    ensures o == 0.1 <==> IsEvidenceCategory(e.category) && !Visible(states, e.category)
  {
    if e.category == Some(Literature) then (if Visible(states, Some(Literature)) then 0.6 else 0.1)
    else if e.category == Some(Trials) then (if Visible(states, Some(Trials)) then 0.6 else 0.1)
    else if e.category == Some(Patents) then (if Visible(states, Some(Patents)) then 0.6 else 0.1)
    else 0.6
  }

  /**
   * Hiding category c ghosts exactly the evidence nodes and edges of c and changes no
   * other opacity; showing it again restores every opacity.
   */
  lemma HideCategory(states: map<Category, bool>, c: Category, n: Node, e: Edge)
    requires c != PathwayCategory && states.Keys == {Literature, Trials, Patents} && states[c]
    ensures NodeOpacity(n, states[c := false]) ==
      if n.kind == Evidence && n.category == Some(c) then 0.1 else NodeOpacity(n, states)
    ensures EdgeOpacity(e, states[c := false]) == if e.category == Some(c) then 0.1 else EdgeOpacity(e, states)
    ensures NodeOpacity(n, states[c := false][c := true]) == NodeOpacity(n, states)
    ensures EdgeOpacity(e, states[c := false][c := true]) == EdgeOpacity(e, states)
  {
    assert states[c := false][c := true] == states;
  }

  // ---------------------------------------------------------------------------
  // Flow animator arithmetic

  /** `2000 + Math.random() * 1000` */
  function ParticleDuration(r: real): (d: real)
    requires 0.0 <= r < 1.0
    ensures 2000.0 <= d < 3000.0
  {
    2000.0 + r * 1000.0
  }

  /** `Math.min(elapsed / duration, 1)` */
  function Progress(elapsed: real, duration: real): (p: real)
    requires duration > 0.0
    ensures p <= 1.0
    ensures elapsed >= 0.0 ==> 0.0 <= p
    ensures p == 1.0 <==> elapsed >= duration
    ensures elapsed < duration ==> p == elapsed / duration
  {
    ProgressReachesOne(elapsed, duration);
    Min(elapsed / duration, 1.0)
  }

  lemma ProgressReachesOne(elapsed: real, duration: real)
    requires duration > 0.0
    ensures elapsed / duration >= 1.0 <==> elapsed >= duration
    ensures elapsed >= 0.0 ==> elapsed / duration >= 0.0
  {
    assert (elapsed / duration) * duration == elapsed;
  }

  /** Linear interpolation from `a` to `b`. */
  function Lerp(a: real, b: real, t: real): (r: real)
    ensures t == 0.0 ==> r == a
    ensures t == 1.0 ==> r == b
    ensures 0.0 <= t <= 1.0 ==> Min(a, b) <= r <= Max(a, b)
  {
    LerpBetween(a, b, t);
    a + (b - a) * t
  }

  lemma LerpBetween(a: real, b: real, t: real)
    ensures 0.0 <= t <= 1.0 ==> Min(a, b) <= a + (b - a) * t <= Max(a, b)
  {
    if 0.0 <= t <= 1.0 {
      var d := b - a;
      assert d * (1.0 - t) == d - d * t;
      if a <= b {
        ProductNonNegative(d, t);
        ProductNonNegative(d, 1.0 - t);
      } else {
        ProductNonNegative(-d, t);
        ProductNonNegative(-d, 1.0 - t);
        assert -d * t == -(d * t) && -d * (1.0 - t) == -(d * (1.0 - t));
      }
    }
  }

  lemma ProductNonNegative(x: real, y: real)
    requires x >= 0.0 && y >= 0.0
    ensures x * y >= 0.0
  {
  }

  /** An in-flight particle: the edge it follows, its timing and its drawn centre. */
  datatype Particle = Particle(id: nat, edge: nat, duration: real, start: real, cx: real, cy: real)

  /**
   * One animation frame of the particle at position `i`, whose edge now runs from `s`
   * to `t`: while less than its duration has passed since its start it is moved to the
   * point that fraction of the way along the edge, and otherwise it is removed.
   */
  function AfterFrame(ps: seq<Particle>, i: nat, s: Pos, t: Pos, now: real): (r: seq<Particle>)
    requires i < |ps| && ps[i].duration > 0.0
    ensures var p := ps[i]; var elapsed := now - p.start;
      && (elapsed < p.duration ==>
            |r| == |ps|
            && (forall k :: 0 <= k < |ps| && k != i ==> r[k] == ps[k])
            && r[i] == p.(cx := s.x + (t.x - s.x) * (elapsed / p.duration), cy := s.y + (t.y - s.y) * (elapsed / p.duration)))
      && (elapsed >= p.duration ==> r == ps[..i] + ps[i + 1..])
    ensures forall q :: q in r ==> q in ps || q == ps[i].(cx := q.cx, cy := q.cy)
    ensures 0.0 <= now - ps[i].start < ps[i].duration ==>
      Min(s.x, t.x) <= r[i].cx <= Max(s.x, t.x) && Min(s.y, t.y) <= r[i].cy <= Max(s.y, t.y)
  {
    var p := ps[i];
    var progress := Progress(now - p.start, p.duration);
    if progress < 1.0 then
      ps[i := p.(cx := Lerp(s.x, t.x, progress), cy := Lerp(s.y, t.y, progress))]
    else
      var rest := ps[..i] + ps[i + 1..];
      assert forall q :: q in rest ==> q in ps;
      rest
  }

  /** The first position of the particle with this id, or the length when it is gone. */
  function ParticleIndex(ps: seq<Particle>, pid: nat): (i: nat)
    ensures i <= |ps|
    ensures forall k :: 0 <= k < i ==> ps[k].id != pid
    ensures i < |ps| ==> ps[i].id == pid
  {
    if ps == [] then 0
    else if ps[0].id == pid then 0
    else 1 + ParticleIndex(ps[1..], pid)
  }

  // ---------------------------------------------------------------------------
  // Layout parameters

  /** The `forceX` lane of each node type, for a container `width` pixels wide. */
  function LaneX(kind: NodeType, width: real): real {
    match kind
    case Evidence => width * 0.15
    case Pathway => width * 0.5
    case Disease => width * 0.85
    case Molecule => width * 0.5
  }

  /** Evidence sits left of the hub, the hub left of the outcomes. */
  lemma LanesOrdered(width: real)
    requires width > 0.0
    ensures 0.0 < LaneX(Evidence, width) < LaneX(Pathway, width) < LaneX(Disease, width) < width
  {
  }

  const LinkDistance: real := 100.0
  const ChargeStrength: real := -200.0
  const LaneStrength: real := 0.8
  const CollisionRadius: real := 25.0

  function NodeRadius(kind: NodeType): nat {
    match kind
    case Evidence => 12
    case Pathway => 20
    case Disease => 15
    case Molecule => 12
  }

  function LabelDy(kind: NodeType): nat {
    match kind
    case Evidence => 20
    case Pathway => 28
    case Disease => 23
    case Molecule => 20
  }

  /** Every label is drawn below its circle. */
  lemma LabelsClearCircles(kind: NodeType)
    ensures LabelDy(kind) > NodeRadius(kind)
  {
  }

  /** Labels longer than 15 characters are cut to 12 and given an ellipsis. */
  function DisplayLabel(text: string): (r: string)
    ensures |r| <= 15
    ensures |text| <= 15 ==> r == text
    ensures |text| > 15 ==> |r| == 15
    ensures |text| > 15 ==> r[..12] == text[..12] && r[12..] == "..."
  {
    if |text| > 15 then text[..12] + "..." else text
  }

  /** The opacity of every node, in node order. */
  function NodeOpacities(nodes: seq<Node>, states: map<Category, bool>): (ops: seq<real>)
    ensures |ops| == |nodes| && forall k :: 0 <= k < |nodes| ==> ops[k] == NodeOpacity(nodes[k], states)
  {
    seq(|nodes|, k requires 0 <= k < |nodes| => NodeOpacity(nodes[k], states))
  }

  /** The opacity of every edge, in edge order. */
  function EdgeOpacities(edges: seq<Edge>, states: map<Category, bool>): (ops: seq<real>)
    ensures |ops| == |edges| && forall j :: 0 <= j < |edges| ==> ops[j] == EdgeOpacity(edges[j], states)
  {
    seq(|edges|, j requires 0 <= j < |edges| => EdgeOpacity(edges[j], states))
  }

  // Step lemmas for the loops that build these sequences one element at a time.

  lemma FlowNodesSnoc(opps: seq<Opportunity>, i: nat)
    requires i < |opps|
    ensures FlowNodes(opps[..i + 1]) == FlowNodes(opps[..i]) + [DiseaseNode(i, opps[i])]
  {
    assert DiseaseNodes(opps[..i + 1]) == DiseaseNodes(opps[..i]) + [DiseaseNode(i, opps[i])];
  }

  lemma EvidenceEdgesSnoc(ns: seq<Node>, k: nat)
    requires k < |ns|
    ensures EvidenceEdges(ns[..k + 1])
      == EvidenceEdges(ns[..k]) + (if ns[k].kind == Evidence then [EvidenceEdge(ns[k])] else [])
  {
    assert ns[..k + 1] == ns[..k] + [ns[k]];
    EvidenceEdgesAppend(ns[..k], [ns[k]]);
  }

  lemma OutcomeEdgesSnoc(opps: seq<Opportunity>, i: nat)
    requires i < |opps|
    ensures OutcomeEdges(opps[..i + 1]) == OutcomeEdges(opps[..i]) + [OutcomeEdge(i, opps[i])]
  {
  }

  lemma NodeOpacitiesSnoc(ns: seq<Node>, k: nat, states: map<Category, bool>)
    requires k < |ns|
    ensures NodeOpacities(ns[..k + 1], states) == NodeOpacities(ns[..k], states) + [NodeOpacity(ns[k], states)]
  {
  }

  lemma EdgeOpacitiesSnoc(es: seq<Edge>, j: nat, states: map<Category, bool>)
    requires j < |es|
    ensures EdgeOpacities(es[..j + 1], states) == EdgeOpacities(es[..j], states) + [EdgeOpacity(es[j], states)]
  {
  }

  // ---------------------------------------------------------------------------
  // The view

  class ExplainableAI {
    var analysisData: Option<Payload>
    var nodes: seq<Node>
    var edges: seq<Edge>
    /** positions of the nodes, kept by the force simulation */
    var positions: seq<Pos>
    var alphaTarget: real
    /** the `highlighted` class of each node circle and each edge line */
    var nodeHl: seq<bool>
    var edgeHl: seq<bool>
    /** inline opacity of each node and edge; empty until the first category toggle */
    var nodeOpacity: seq<real>
    var edgeOpacity: seq<real>
    var evidenceStates: map<Category, bool>
    /** the interval handle of the flow animation, null when stopped */
    var flowAnimation: Option<nat>
    var particles: seq<Particle>
    var nextParticle: nat

    ghost predicate Valid()
      reads this
    {
      && evidenceStates.Keys == {Literature, Trials, Patents}
      && (analysisData.None? ==> nodes == [] && edges == [] && flowAnimation.None?)
      && (analysisData.Some? ==>
            nodes == FlowNodes(analysisData.value.opportunities)
            && edges == FlowEdges(analysisData.value.opportunities))
      && |positions| == |nodes| && |nodeHl| == |nodes| && |edgeHl| == |edges|
      && ((nodeOpacity == [] && edgeOpacity == []) || (|nodeOpacity| == |nodes| && |edgeOpacity| == |edges|))
      && (forall p :: p in particles ==> p.edge < |edges| && p.duration >= 2000.0)
    }

    constructor ()
      ensures Valid()
      ensures analysisData.None? && nodes == [] && edges == [] && particles == []
      ensures flowAnimation.None?
      ensures evidenceStates == map[Literature := true, Trials := true, Patents := true]
    {
      analysisData := None;
      nodes, edges, positions := [], [], [];
      alphaTarget := RestAlphaTarget;
      nodeHl, edgeHl := [], [];
      nodeOpacity, edgeOpacity := [], [];
      evidenceStates := map[Literature := true, Trials := true, Patents := true];
      flowAnimation := None;
      particles, nextParticle := [], 0;
    }

    /**
     * The 'analysis-data' message: rebuild the model and re-render. `initial` holds the
     * positions the force simulation gives the fresh nodes.
     */
    method OnAnalysisData(payload: Payload, initial: seq<(real, real)>)
      requires Valid()
      requires |initial| == 9 + |payload.opportunities|
      modifies this
      ensures Valid()
      ensures analysisData == Some(payload)
      ensures nodes == FlowNodes(payload.opportunities) && edges == FlowEdges(payload.opportunities)
      ensures positions == Placed(initial)
      ensures alphaTarget == RestAlphaTarget
      ensures (forall k :: 0 <= k < |nodeHl| ==> !nodeHl[k]) && (forall j :: 0 <= j < |edgeHl| ==> !edgeHl[j])
      ensures nodeOpacity == [] && edgeOpacity == [] && particles == []
      ensures evidenceStates == old(evidenceStates) && flowAnimation == old(flowAnimation)
      ensures nextParticle == old(nextParticle)
    {
      analysisData := Some(payload);
      CreateEvidenceFlowData(payload.opportunities);
      FlowShape(payload.opportunities);
      RenderGraph(initial);
    }

    /** createEvidenceFlowData: fills the node list, then the edge list, by pushing. */
    method CreateEvidenceFlowData(opps: seq<Opportunity>)
      modifies this`nodes, this`edges
      ensures nodes == FlowNodes(opps) && edges == FlowEdges(opps)
    {
      var ns := Roster;
      ns := ns + [Hub];
      var i := 0;
      assert opps[..0] == [];
      while i < |opps|
        invariant 0 <= i <= |opps|
        invariant ns == FlowNodes(opps[..i])
      {
        FlowNodesSnoc(opps, i);
        ns := ns + [DiseaseNode(i, opps[i])];
        i := i + 1;
      }
      assert opps[..i] == opps;
      var es: seq<Edge> := [];
      var k := 0;
      while k < |ns|
        invariant 0 <= k <= |ns|
        invariant es == EvidenceEdges(ns[..k])
      {
        EvidenceEdgesSnoc(ns, k);
        if ns[k].kind == Evidence {
          es := es + [EvidenceEdge(ns[k])];
        }
        k := k + 1;
      }
      assert ns[..k] == ns;
      i := 0;
      while i < |opps|
        invariant 0 <= i <= |opps|
        invariant es == EvidenceEdges(ns) + OutcomeEdges(opps[..i])
      {
        OutcomeEdgesSnoc(opps, i);
        es := es + [OutcomeEdge(i, opps[i])];
        i := i + 1;
      }
      assert opps[..i] == opps;
      nodes, edges := ns, es;
    }

    /** renderGraph: a fresh drawing and a fresh simulation for the current model. */
    method RenderGraph(initial: seq<(real, real)>)
      requires |initial| == |nodes|
      modifies this`positions, this`alphaTarget, this`nodeHl, this`edgeHl,
               this`nodeOpacity, this`edgeOpacity, this`particles
      ensures positions == Placed(initial)
      ensures alphaTarget == RestAlphaTarget
      ensures nodeHl == seq(|nodes|, _ => false) && edgeHl == seq(|edges|, _ => false)
      ensures nodeOpacity == [] && edgeOpacity == [] && particles == []
    {
      positions := Placed(initial);
      alphaTarget := RestAlphaTarget;
      nodeHl := seq(|nodes|, _ => false);
      edgeHl := seq(|edges|, _ => false);
      nodeOpacity, edgeOpacity := [], [];
      particles := [];
    }

    /**
     * handleNodeClick: ignored unless the node is an evidence source; otherwise the
     * highlight is replaced by the node's one-hop neighbourhood.
     */
    method HandleNodeClick(i: nat)
      requires Valid() && i < |nodes|
      modifies this`nodeHl, this`edgeHl
      ensures Valid()
      ensures nodes[i].kind != Evidence ==> nodeHl == old(nodeHl) && edgeHl == old(edgeHl)
      ensures nodes[i].kind == Evidence ==>
        nodeHl == NodeMarks(Ids(nodes), Links(edges), nodes[i].id) && edgeHl == EdgeMarks(Links(edges), nodes[i].id)
    {
      if nodes[i].kind != Evidence {
        return;
      }
      nodeHl, edgeHl := ClickHighlight(nodeHl, edgeHl, Ids(nodes), Links(edges), nodes[i].id);
    }

    /** A literature, trials or patents checkbox changed. */
    method SetEvidenceState(c: Category, checked: bool)
      requires Valid() && analysisData.Some? && c != PathwayCategory
      modifies this`evidenceStates, this`nodeOpacity, this`edgeOpacity
      ensures Valid()
      ensures evidenceStates == old(evidenceStates)[c := checked]
      ensures nodeOpacity == NodeOpacities(nodes, evidenceStates)
      ensures edgeOpacity == EdgeOpacities(edges, evidenceStates)
    {
      evidenceStates := evidenceStates[c := checked];
      UpdateEvidenceVisibility();
    }

    /** updateEvidenceVisibility: restyles every node, then every edge. */
    method UpdateEvidenceVisibility()
      requires Valid()
      modifies this`nodeOpacity, this`edgeOpacity
      ensures Valid()
      ensures nodeOpacity == NodeOpacities(nodes, evidenceStates)
      ensures edgeOpacity == EdgeOpacities(edges, evidenceStates)
    {
      var ns, es, states := nodes, edges, evidenceStates;
      var ops: seq<real> := [];
      var k := 0;
      while k < |ns|
        invariant 0 <= k <= |ns|
        invariant ops == NodeOpacities(ns[..k], states)
      {
        NodeOpacitiesSnoc(ns, k, states);
        ops := ops + [NodeOpacity(ns[k], states)];
        k := k + 1;
      }
      assert ns[..k] == ns;
      var eops: seq<real> := [];
      var j := 0;
      while j < |es|
        invariant 0 <= j <= |es|
        invariant eops == EdgeOpacities(es[..j], states)
      {
        EdgeOpacitiesSnoc(es, j, states);
        eops := eops + [EdgeOpacity(es[j], states)];
        j := j + 1;
      }
      assert es[..j] == es;
      nodeOpacity, edgeOpacity := ops, eops;
    }

    /**
     * The flow button: a running animation is stopped, its handle cleared and every
     * particle removed at once; a stopped one is started with the new interval handle.
     */
    method ToggleFlowAnimation(handle: nat)
      requires Valid() && analysisData.Some? && handle > 0
      modifies this`flowAnimation, this`particles
      ensures Valid()
      ensures old(flowAnimation).Some? ==> flowAnimation.None? && particles == []
      ensures old(flowAnimation).None? ==> flowAnimation == Some(handle) && particles == old(particles)
    {
      if flowAnimation.Some? {
        flowAnimation := None;
        particles := [];
      } else {
        flowAnimation := Some(handle);
      }
    }

    /** Where the node with this id is now. */
    function PositionOf(id: string): (p: Pos)
      reads this
      requires Valid() && IndexOf(Ids(nodes), id) < |nodes|
    {
      positions[IndexOf(Ids(nodes), id)]
    }

    lemma EndpointsResolve(j: nat)
      requires Valid() && j < |edges|
      ensures IndexOf(Ids(nodes), edges[j].source) < |nodes| && IndexOf(Ids(nodes), edges[j].target) < |nodes|
    {
      FlowEndpointsResolve(analysisData.value.opportunities);
    }

    /** Where the source and the target of edge `j` are now. */
    function EdgeEnds(j: nat): (Pos, Pos)
      reads this
      requires Valid() && j < |edges|
    {
      EndpointsResolve(j);
      (PositionOf(edges[j].source), PositionOf(edges[j].target))
    }

    /**
     * One firing of the 500 ms interval: pick an edge; when its category is not truthy
     * in evidenceStates (always so for the 'pathway' edges) nothing is spawned,
     * otherwise a particle starts at the edge's source.
     */
    method FlowTick(pick: real, durationDraw: real, now: real)
      requires Valid() && flowAnimation.Some?
      requires 0.0 <= pick < 1.0 && 0.0 <= durationDraw < 1.0
      modifies this`particles, this`nextParticle
      ensures Valid()
      ensures var j := RandomBelow(pick, |edges|);
        if Visible(evidenceStates, edges[j].category) then
          EndpointsResolve(j);
          var s := PositionOf(edges[j].source);
          particles == old(particles) + [Particle(old(nextParticle), j, ParticleDuration(durationDraw), now, s.x, s.y)]
          && nextParticle == old(nextParticle) + 1
        else
          particles == old(particles) && nextParticle == old(nextParticle)
    {
      FlowCounts(analysisData.value.opportunities);
      var j := RandomBelow(pick, |edges|);
      var edge := edges[j];
      if !Visible(evidenceStates, edge.category) {
        return;
      }
      EndpointsResolve(j);
      var s := PositionOf(edge.source);
      particles := particles + [Particle(nextParticle, j, ParticleDuration(durationDraw), now, s.x, s.y)];
      nextParticle := nextParticle + 1;
    }

    /**
     * One animation frame of particle `pid`: move it to the interpolated point of its
     * edge, and remove it once its progress reaches 1, that is on the first frame at
     * least its duration after its start. A frame for a particle that is gone (the
     * animation was stopped) changes nothing.
     */
    method MoveParticle(pid: nat, now: real)
      requires Valid()
      modifies this`particles
      ensures Valid()
      ensures var i := ParticleIndex(old(particles), pid);
        if i == |old(particles)| then particles == old(particles)
        else
          var ends := EdgeEnds(old(particles)[i].edge);
          particles == AfterFrame(old(particles), i, ends.0, ends.1, now)
    {
      var i := 0;
      while i < |particles| && particles[i].id != pid
        invariant 0 <= i <= |particles|
        invariant forall k :: 0 <= k < i ==> particles[k].id != pid
      {
        i := i + 1;
      }
      assert i == ParticleIndex(particles, pid);
      if i == |particles| {
        return;
      }
      assert particles[i] in particles;
      var (s, t) := EdgeEnds(particles[i].edge);
      particles := AfterFrame(particles, i, s, t, now);
    }

    method DragStarted(i: nat, active: bool)
      requires Valid() && i < |nodes|
      modifies this`positions, this`alphaTarget
      ensures Valid()
      ensures positions == old(positions)[i := PinInPlace(old(positions)[i])]
      ensures alphaTarget == AlphaOnDragStart(active, old(alphaTarget))
    {
      alphaTarget := AlphaOnDragStart(active, alphaTarget);
      positions := positions[i := PinInPlace(positions[i])];
    }

    method Dragged(i: nat, x: real, y: real)
      requires Valid() && i < |nodes|
      modifies this`positions
      ensures Valid()
      ensures positions == old(positions)[i := PinAt(old(positions)[i], x, y)]
    {
      positions := positions[i := PinAt(positions[i], x, y)];
    }

    method DragEnded(i: nat, active: bool)
      requires Valid() && i < |nodes|
      modifies this`positions, this`alphaTarget
      ensures Valid()
      ensures positions == old(positions)[i := Unpin(old(positions)[i])]
      ensures alphaTarget == AlphaOnDragEnd(active, old(alphaTarget))
    {
      alphaTarget := AlphaOnDragEnd(active, alphaTarget);
      positions := positions[i := Unpin(positions[i])];
    }
  }

  /** The 'pathway' category is never a key of evidenceStates, so its edges never spawn. */
  lemma PathwayEdgesNeverSpawn(states: map<Category, bool>, opps: seq<Opportunity>, j: nat)
    requires states.Keys == {Literature, Trials, Patents}
    requires 8 <= j < |FlowEdges(opps)|
    ensures !Visible(states, FlowEdges(opps)[j].category)
  {
    FlowEdgesShape(opps);
  }
}
