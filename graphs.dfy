/**
 * What the evidence-flow view and the network view share: node types, the edge
 * strength classes and their stroke widths, tooltip placement, drag pinning, the
 * index-based disease ids and the one-hop click highlight.
 */
module Graphs {
  import opened Common
  import opened Text

  datatype NodeType = Evidence | Pathway | Disease | Molecule

  datatype Strength = Weak | Moderate | Strong

  function Rank(s: Strength): nat {
    match s
    case Weak => 0
    case Moderate => 1
    case Strong => 2
  }

  /** The `stroke-width` switch of both views: strong 4, moderate 2, weak 1. */
  function StrokeWidth(s: Strength): (w: nat)
    ensures w == 4 <==> s == Strong
    ensures w == 2 <==> s == Moderate
    ensures w == 1 <==> s == Weak
  {
    match s
    case Strong => 4
    case Moderate => 2
    case Weak => 1
  }

  /** A stronger edge is always drawn with a thicker line. */
  lemma StrokeWidthMonotone(a: Strength, b: Strength)
    ensures Rank(a) < Rank(b) <==> StrokeWidth(a) < StrokeWidth(b)
  {
  }

  /**
   * One axis of tooltip placement: 10 pixels past the cursor, moved to 10 pixels
   * before it when the far edge would pass the container's edge `limit`.
   */
  function TooltipCoord(page: real, size: real, limit: real): (r: real)
    ensures r == page + 10.0 || r == page - size - 10.0
    ensures page + 10.0 + size <= limit ==> r == page + 10.0
    ensures r + size <= limit || r + size == page - 10.0
    ensures size >= 0.0 ==> r > page || r + size < page
  {
    var preferred := page + 10.0;
    if preferred + size > limit then page - size - 10.0 else preferred
  }

  /**
   * The flip never looks at the near edge: a wide tooltip near the left side is
   * moved past the container's left edge rather than clamped.
   */
  lemma TooltipMayLeaveContainerOnTheLeft()
    ensures TooltipCoord(50.0, 300.0, 200.0) == -260.0
  {
  }

  /** A node's simulated position and its pin (`fx`, `fy`); `None` is JavaScript's null. */
  datatype Pos = Pos(x: real, y: real, fx: Option<real>, fy: Option<real>)

  /** The simulation's alpha target while a drag is in progress and at rest. */
  const DragAlphaTarget: real := 0.3
  const RestAlphaTarget: real := 0.0

  /** The nodes at the positions the simulation starts them at, none of them pinned. */
  function Placed(initial: seq<(real, real)>): (ps: seq<Pos>)
    ensures |ps| == |initial|
    ensures forall k :: 0 <= k < |ps| ==> ps[k] == Pos(initial[k].0, initial[k].1, None, None)
  {
    seq(|initial|, k requires 0 <= k < |initial| => Pos(initial[k].0, initial[k].1, None, None))
  }

  /** drag start: pin the node where it is */
  function PinInPlace(p: Pos): Pos {
    p.(fx := Some(p.x), fy := Some(p.y))
  }

  /** drag: move the pin to the cursor */
  function PinAt(p: Pos, x: real, y: real): Pos {
    p.(fx := Some(x), fy := Some(y))
  }

  /** drag end: release the pin */
  function Unpin(p: Pos): Pos {
    p.(fx := None, fy := None)
  }

  /** A drag start only touches the alpha target when no other drag gesture is active. */
  function AlphaOnDragStart(active: bool, alpha: real): real {
    if active then alpha else DragAlphaTarget
  }

  function AlphaOnDragEnd(active: bool, alpha: real): real {
    if active then alpha else RestAlphaTarget
  }

  /**
   * A complete gesture (start, any number of moves, end) leaves the node where the
   * force simulation had it and with no pin, and drops the alpha target back to rest
   * when it was the only gesture.
   */
  lemma {:induction false} DragGestureReleases(p: Pos, moves: seq<(real, real)>, alpha: real)
    ensures var q := Unpin(Moves(PinInPlace(p), moves));
            q == p.(fx := None, fy := None)
    ensures AlphaOnDragEnd(false, AlphaOnDragStart(false, alpha)) == RestAlphaTarget
    ensures AlphaOnDragStart(false, alpha) == DragAlphaTarget
  {
    MovesKeepPosition(PinInPlace(p), moves);
  }

  function Moves(p: Pos, moves: seq<(real, real)>): Pos
    decreases |moves|
  {
    if moves == [] then p else Moves(PinAt(p, moves[0].0, moves[0].1), moves[1..])
  }

  lemma {:induction false} MovesKeepPosition(p: Pos, moves: seq<(real, real)>)
    ensures Moves(p, moves).x == p.x && Moves(p, moves).y == p.y
    ensures moves != [] ==>
      (Moves(p, moves).fx == Some(moves[|moves| - 1].0) && Moves(p, moves).fy == Some(moves[|moves| - 1].1))
    decreases |moves|
  {
    if moves != [] {
      MovesKeepPosition(PinAt(p, moves[0].0, moves[0].1), moves[1..]);
    }
  }

  /** `disease-${index}` */
  function DiseaseId(i: nat): string {
    "disease-" + NatToString(i)
  }

  lemma DiseaseIdInjective(i: nat, j: nat)
    ensures DiseaseId(i) == DiseaseId(j) <==> i == j
  {
    if DiseaseId(i) == DiseaseId(j) {
      assert NatToString(i) == DiseaseId(i)[8..] == DiseaseId(j)[8..] == NatToString(j);
      NatToStringInjective(i, j);
    }
  }

  lemma DiseaseIdStartsWithD(i: nat)
    ensures |DiseaseId(i)| > 8 && DiseaseId(i)[0] == 'd'
  {
  }

  /** The first position of `id` in `ids`, or |ids| when it is absent (Array.prototype.find). */
  function IndexOf(ids: seq<string>, id: string): (r: nat)
    ensures r <= |ids|
    ensures r < |ids| ==> ids[r] == id
    ensures forall k :: 0 <= k < r ==> ids[k] != id
    decreases |ids|
  {
    if ids == [] then 0 else if ids[0] == id then 0 else 1 + IndexOf(ids[1..], id)
  }

  /** The endpoints of an edge, as the highlight filters compare them. */
  datatype Link = Link(source: string, target: string)

  predicate Incident(l: Link, id: string) {
    l.source == id || l.target == id
  }

  /**
   * The one-hop neighbourhood of node `c`: the node itself and every endpoint of an
   * edge incident to it.
   */
  predicate InNeighbourhood(links: seq<Link>, c: string, id: string) {
    id == c || exists j :: 0 <= j < |links| && Incident(links[j], c) && Incident(links[j], id)
  }

  function NodeMarks(ids: seq<string>, links: seq<Link>, c: string): seq<bool> {
    seq(|ids|, k requires 0 <= k < |ids| => InNeighbourhood(links, c, ids[k]))
  }

  function EdgeMarks(links: seq<Link>, c: string): seq<bool> {
    seq(|links|, j requires 0 <= j < |links| => Incident(links[j], c))
  }

  /**
   * The click highlight of both graph views, pass by pass: clear every node and edge
   * flag, flag the clicked node, then flag every edge incident to it and, for each
   * such edge, every node at one of its ends. The result depends only on the graph
   * and the clicked id, never on the flags before the click.
   */
  method ClickHighlight(nodeFlags: seq<bool>, edgeFlags: seq<bool>, ids: seq<string>, links: seq<Link>, c: string)
    returns (nodeHl: seq<bool>, edgeHl: seq<bool>)
    requires |nodeFlags| == |ids| && |edgeFlags| == |links|
    ensures nodeHl == NodeMarks(ids, links, c)
    ensures edgeHl == EdgeMarks(links, c)
  {
    nodeHl, edgeHl := nodeFlags, edgeFlags;
    var k := 0;
    while k < |nodeHl|
      invariant 0 <= k <= |nodeHl| == |ids|
      invariant forall m :: 0 <= m < k ==> !nodeHl[m]
    {
      nodeHl := nodeHl[k := false];
      k := k + 1;
    }
    var j := 0;
    while j < |edgeHl|
      invariant 0 <= j <= |edgeHl| == |links|
      invariant forall m :: 0 <= m < j ==> !edgeHl[m]
    {
      edgeHl := edgeHl[j := false];
      j := j + 1;
    }
    k := 0;
    while k < |nodeHl|
      invariant 0 <= k <= |nodeHl| == |ids|
      invariant forall m :: 0 <= m < |ids| ==> nodeHl[m] == (m < k && ids[m] == c)
    {
      if ids[k] == c {
        nodeHl := nodeHl[k := true];
      }
      k := k + 1;
    }
    j := 0;
    while j < |links|
      invariant 0 <= j <= |links| == |edgeHl|
      invariant |nodeHl| == |ids|
      invariant forall m :: 0 <= m < |links| ==> edgeHl[m] == (m < j && Incident(links[m], c))
      invariant forall m :: 0 <= m < |ids| ==> nodeHl[m] == InNeighbourhood(links[..j], c, ids[m])
    {
      if Incident(links[j], c) {
        edgeHl := edgeHl[j := true];
        k := 0;
        while k < |nodeHl|
          invariant 0 <= k <= |nodeHl| == |ids|
          invariant forall m :: 0 <= m < |ids| ==>
            nodeHl[m] == (InNeighbourhood(links[..j], c, ids[m]) || (m < k && Incident(links[j], ids[m])))
        {
          if Incident(links[j], ids[k]) {
            nodeHl := nodeHl[k := true];
          }
          k := k + 1;
        }
      }
      NeighbourhoodExtend(ids, links, j, c);
      j := j + 1;
    }
    assert links[..|links|] == links;
  }

  lemma NeighbourhoodExtend(ids: seq<string>, links: seq<Link>, j: nat, c: string)
    requires j < |links|
    ensures forall id :: InNeighbourhood(links[..j + 1], c, id) <==>
      InNeighbourhood(links[..j], c, id) || (Incident(links[j], c) && Incident(links[j], id))
  {
    assert links[..j + 1] == links[..j] + [links[j]];
    forall id ensures InNeighbourhood(links[..j + 1], c, id) <==>
      InNeighbourhood(links[..j], c, id) || (Incident(links[j], c) && Incident(links[j], id))
    {
      if InNeighbourhood(links[..j + 1], c, id) && id != c {
        var i :| 0 <= i < j + 1 && Incident(links[..j + 1][i], c) && Incident(links[..j + 1][i], id);
        if i < j {
          assert links[..j][i] == links[..j + 1][i];
        }
      }
      if InNeighbourhood(links[..j], c, id) && id != c {
        var i :| 0 <= i < j && Incident(links[..j][i], c) && Incident(links[..j][i], id);
        assert links[..j + 1][i] == links[..j][i];
      }
      if Incident(links[j], c) && Incident(links[j], id) {
        assert links[..j + 1][j] == links[j];
      }
    }
  }
}
