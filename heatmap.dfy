/**
 * The molecular impact heatmap (map.js, class MolecularHeatmap): one cell for every
 * pair of a JAK/STAT pathway component and a disease of the analysis, an impact
 * score per cell drawn around a fixed table, a five-step colour scale, component and
 * disease filters that remove cells from the drawing, a row/column click highlight
 * and the "crosstalk" outline of strongly affected cells of the same disease.
 */
module Heatmap {
  import opened Common
  import opened Text

  // ---------------------------------------------------------------------------
  // Components and diseases

  /** The pathway components, one heatmap row each, in row order. */
  const Components: seq<string> := ["JAK1", "JAK2", "JAK3", "TYK2", "STAT1", "STAT3", "STAT5"]

  datatype ComponentType = Jak | Stat

  /** `component.startsWith('JAK') ? 'jak' : 'stat'` */
  function TypeOf(component: string): (t: ComponentType)
    ensures t == Jak <==> StartsWith(component, "JAK")
  {
    if StartsWith(component, "JAK") then Jak else Stat
  }

  /** JAK1, JAK2 and JAK3 are 'jak'; TYK2, a Janus kinase too, is classed 'stat' by the prefix test. */
  lemma ComponentTypes()
    ensures forall k :: 0 <= k < |Components| ==> (TypeOf(Components[k]) == Jak <==> k < 3)
    ensures TypeOf("TYK2") == Stat
  {
    assert Components[3][0] == 'T';
  }

  lemma ComponentsDistinct(a: nat, b: nat)
    requires a < |Components| && b < |Components| && a != b
    ensures Components[a] != Components[b]
  {
    var x, y := Components[a], Components[b];
    if |x| == |y| {
      if |x| == 4 {
        assert x[0] != y[0] || x[3] != y[3];
      } else {
        assert x[4] != y[4];
      }
    }
  }

  /** The disease of every opportunity, in payload order: the heatmap's columns. */
  function Diseases(opps: seq<Opportunity>): (ds: seq<string>)
    ensures |ds| == |opps| && forall i :: 0 <= i < |opps| ==> ds[i] == opps[i].disease
  {
    seq(|opps|, i requires 0 <= i < |opps| => opps[i].disease)
  }

  predicate Distinct(ds: seq<string>) {
    forall a, b :: 0 <= a < b < |ds| ==> ds[a] != ds[b]
  }

  /** `s.replace(/\s+/g, '_')`: every run of white space becomes one underscore. */
  function UnderscoreSpaces(s: string): (r: string)
    ensures |r| <= |s|
    ensures forall i :: 0 <= i < |r| ==> !IsSpace(r[i])
    ensures (forall i :: 0 <= i < |s| ==> !IsSpace(s[i])) ==> r == s
    decreases |s|
  {
    if s == [] then []
    else if IsSpace(s[0]) then
      var rest := TrimStart(s);
      assert |rest| < |s|;
      assert !IsSpace('_');
      ['_'] + UnderscoreSpaces(rest)
    else
      [s[0]] + UnderscoreSpaces(s[1..])
  }

  /**
   * A maximal run of white space, between a non-space (or the start) and a non-space
   * (or the end), becomes exactly one underscore, and the text on either side is
   * rewritten on its own.
   */
  lemma {:induction false} UnderscoreRun(u: string, w: string, v: string)
    requires AllSpace(w) && w != []
    requires u == [] || !IsSpace(u[|u| - 1])
    requires v == [] || !IsSpace(v[0])
    ensures UnderscoreSpaces(u + w + v) == UnderscoreSpaces(u) + "_" + UnderscoreSpaces(v)
    decreases |u|, 1
  {
    if u == [] {
      UnderscoreRunAtStart(u, w, v);
    } else if IsSpace(u[0]) {
      UnderscoreRunAfterSpace(u, w, v);
    } else {
      UnderscoreRunAfterChar(u, w, v);
    }
  }

  /** The case where the run opens the string: it becomes the leading `_`. */
  lemma UnderscoreRunAtStart(u: string, w: string, v: string)
    requires u == [] && AllSpace(w) && w != []
    requires v == [] || !IsSpace(v[0])
    ensures UnderscoreSpaces(u + w + v) == UnderscoreSpaces(u) + "_" + UnderscoreSpaces(v)
  {
    var s := w + v;
    assert s[0] == w[0];
    TrimStartSkips(w, v);
    assert UnderscoreSpaces(s) == "_" + UnderscoreSpaces(v);
    assert UnderscoreSpaces(u) == [];
    EmptyConcat(u, w);
    EmptyConcat(UnderscoreSpaces(u), "_");
  }

  lemma EmptyConcat(e: string, x: string)
    requires e == []
    ensures e + x == x
  {
  }

  /** The case where `u` starts with white space: its own leading run comes first. */
  lemma {:induction false} UnderscoreRunAfterSpace(u: string, w: string, v: string)
    requires AllSpace(w) && w != []
    requires u != [] && IsSpace(u[0]) && !IsSpace(u[|u| - 1])
    requires v == [] || !IsSpace(v[0])
    ensures UnderscoreSpaces(u + w + v) == UnderscoreSpaces(u) + "_" + UnderscoreSpaces(v)
    decreases |u|, 0
  {
    var t := TrimStart(u);
    var x := w + v;
    TrimStartKeepsLast(u);
    TrimStartAppend(u, x);
    UnderscoreSpaceHead(u + x);
    UnderscoreSpaceHead(u);
    UnderscoreRun(t, w, v);
    Associate(u, w, v);
    Associate(t, w, v);
    Regroup(['_'], UnderscoreSpaces(t), UnderscoreSpaces(v));
  }

  lemma UnderscoreSpaceHead(s: string)
    requires s != [] && IsSpace(s[0])
    ensures UnderscoreSpaces(s) == ['_'] + UnderscoreSpaces(TrimStart(s))
  {
  }

  /** The case where `u` starts with a non-space: it is copied. */
  lemma {:induction false} UnderscoreRunAfterChar(u: string, w: string, v: string)
    requires AllSpace(w) && w != []
    requires u != [] && !IsSpace(u[0]) && !IsSpace(u[|u| - 1])
    requires v == [] || !IsSpace(v[0])
    ensures UnderscoreSpaces(u + w + v) == UnderscoreSpaces(u) + "_" + UnderscoreSpaces(v)
    decreases |u|, 0
  {
    var s := u + w + v;
    var u' := u[1..];
    assert s[0] == u[0] && s[1..] == u' + w + v;
    UnderscoreRun(u', w, v);
    assert UnderscoreSpaces(s) == [u[0]] + UnderscoreSpaces(u' + w + v);
    assert UnderscoreSpaces(u) == [u[0]] + UnderscoreSpaces(u');
    Regroup([u[0]], UnderscoreSpaces(u'), UnderscoreSpaces(v));
  }

  lemma Associate(a: string, b: string, c: string)
    ensures a + b + c == a + (b + c)
  {
  }

  lemma Regroup(a: string, l: string, r: string)
    ensures a + (l + "_" + r) == (a + l) + "_" + r
  {
  }

  /** `disease.toLowerCase().replace(/\s+/g, '_')` */
  function DiseaseKey(disease: string): string {
    UnderscoreSpaces(ToLower(disease))
  }

  /** A disease key never holds white space and is never longer than the disease name. */
  lemma DiseaseKeyShape(disease: string)
    ensures |DiseaseKey(disease)| <= |disease|
    ensures forall i :: 0 <= i < |DiseaseKey(disease)| ==> !IsSpace(DiseaseKey(disease)[i])
  {
  }

  /**
   * Two words of a disease name separated by any run of white space give their two
   * keys joined by one underscore: "Rheumatoid  Arthritis" keys as
   * "rheumatoid_arthritis".
   */
  lemma DiseaseKeyRun(u: string, w: string, v: string)
    requires AllSpace(w) && w != []
    requires u == [] || !IsSpace(u[|u| - 1])
    requires v == [] || !IsSpace(v[0])
    ensures DiseaseKey(u + w + v) == DiseaseKey(u) + "_" + DiseaseKey(v)
  {
    var lu, lw, lv := ToLower(u), ToLower(w), ToLower(v);
    assert ToLower(u + w + v) == lu + lw + lv;
    assert forall c :: IsSpace(LowerChar(c)) <==> IsSpace(c);
    UnderscoreRun(lu, lw, lv);
  }

  // ---------------------------------------------------------------------------
  // Impact scores

  const RheumatoidArthritis: string := "Rheumatoid Arthritis"
  const Vitiligo: string := "Vitiligo"
  const UlcerativeColitis: string := "Ulcerative Colitis"

  /** The disease factor table, by disease and then by component. */
  function DiseaseFactors(): map<string, map<string, real>> { map[
    RheumatoidArthritis := map["JAK1" := 0.8, "JAK2" := 0.6, "JAK3" := 0.4, "TYK2" := 0.5,
                               "STAT1" := 0.7, "STAT3" := 0.8, "STAT5" := 0.3],
    Vitiligo := map["JAK1" := 0.7, "JAK2" := 0.5, "JAK3" := 0.9, "TYK2" := 0.6,
                    "STAT1" := 0.8, "STAT3" := 0.4, "STAT5" := 0.2],
    UlcerativeColitis := map["JAK1" := 0.6, "JAK2" := 0.7, "JAK3" := 0.3, "TYK2" := 0.8,
                             "STAT1" := 0.5, "STAT3" := 0.7, "STAT5" := 0.4]
  ]
  }

  /** `diseaseFactors[disease]?.[component]`: None is `undefined`. */
  function Factor(component: string, disease: string): Option<real> {
    if disease in DiseaseFactors() && component in DiseaseFactors()[disease] then
      Some(DiseaseFactors()[disease][component])
    else
      None
  }

  lemma FactorRange(component: string, disease: string)
    ensures Factor(component, disease).Some? ==> 0.2 <= Factor(component, disease).value <= 0.9
  {
    if disease in DiseaseFactors() && component in DiseaseFactors()[disease] {
      var row := DiseaseFactors()[disease];
      assert disease == RheumatoidArthritis || disease == Vitiligo || disease == UlcerativeColitis;
    }
  }

  /** `... || 0.5`: a missing (or zero) factor falls back to 0.5. */
  function BaseScore(component: string, disease: string): (b: real)
    ensures 0.2 <= b <= 0.9
    ensures Factor(component, disease).None? ==> b == 0.5
    ensures Factor(component, disease).Some? ==> b == Factor(component, disease).value
  {
    FactorRange(component, disease);
    match Factor(component, disease)
    case None => 0.5
    case Some(v) => if v != 0.0 then v else 0.5
  }

  /** `(Math.random() - 0.5) * 0.2`: a symmetric jitter in [-0.1, 0.1). */
  function Variation(r: real): (v: real)
    requires Unit(r)
    ensures -0.1 <= v < 0.1
  {
    (r - 0.5) * 0.2
  }

  /**
   * generateImpactScore: the table value (or 0.5) plus the jitter, clamped to [-1, 1].
   * The clamp never acts: every score lies within 0.1 of its base value and in
   * [0.1, 1).
   */
  function ImpactScore(component: string, disease: string, r: real): (s: real)
    requires Unit(r)
    ensures -1.0 <= s <= 1.0
    ensures BaseScore(component, disease) - 0.1 <= s < BaseScore(component, disease) + 0.1
    ensures 0.1 <= s < 1.0
  {
    Clamp(BaseScore(component, disease) + Variation(r), -1.0, 1.0)
  }

  /** A disease absent from the table scores within 0.1 of 0.5 against every component. */
  lemma UnknownDiseaseScore(component: string, disease: string, r: real)
    requires Unit(r) && disease !in DiseaseFactors()
    ensures 0.4 <= ImpactScore(component, disease, r) < 0.6
  {
  }

  // ---------------------------------------------------------------------------
  // Evidence summaries

  const EvidenceTypes: seq<string> := ["Literature", "Clinical Trials", "Patent Analysis"]

  datatype Summary = Summary(sources: seq<string>, publications: int, trials: int, confidence: real)

  /**
   * The random numbers one cell consumes, in the order the code draws them: the
   * impact jitter, one draw per evidence type, then publications, trials, confidence.
   */
  datatype CellDraw = CellDraw(jitter: real, keep: seq<real>, publications: real, trials: real, confidence: real)

  predicate DrawOk(d: CellDraw) {
    Unit(d.jitter) && |d.keep| == |EvidenceTypes| && (forall i :: 0 <= i < |d.keep| ==> Unit(d.keep[i]))
    && Unit(d.publications) && Unit(d.trials) && Unit(d.confidence)
  }

  /** A draw record whose every number is a `Math.random()` value. */
  type Draw = d: CellDraw | DrawOk(d) witness CellDraw(0.0, [0.0, 0.0, 0.0], 0.0, 0.0, 0.0)

  /** `types.filter(() => Math.random() > 0.3)` with the draws given. */
  function Selected(types: seq<string>, keep: seq<real>): (r: seq<string>)
    requires |keep| == |types|
    ensures IsSubsequence(r, types)
    ensures forall i :: 0 <= i < |types| && keep[i] > 0.3 ==> types[i] in r
    decreases |types|
  {
    if types == [] then []
    else
      var n := |types| - 1;
      var pre := Selected(types[..n], keep[..n]);
      assert types == types[..n] + [types[n]];
      SubsequenceExtend(pre, types[..n], types[n]);
      if keep[n] > 0.3 then pre + [types[n]] else pre
  }

  /** With distinct names, a source is listed exactly when its draw exceeds 0.3. */
  lemma {:induction false} SelectedExactly(types: seq<string>, keep: seq<real>, i: nat)
    requires |keep| == |types| && i < |types|
    requires forall a, b :: 0 <= a < b < |types| ==> types[a] != types[b]
    ensures types[i] in Selected(types, keep) <==> keep[i] > 0.3
    decreases |types|
  {
    var n := |types| - 1;
    var pre := Selected(types[..n], keep[..n]);
    SubsequenceMembers(pre, types[..n]);
    if i < n {
      SelectedExactly(types[..n], keep[..n], i);
      assert types[i] != types[n];
    }
  }

  /** The three evidence sources each appear at most once, so each is listed exactly when its draw exceeds 0.3. */
  lemma EvidenceSourceListed(keep: seq<real>, i: nat)
    requires |keep| == 3 && i < 3
    ensures EvidenceTypes[i] in Selected(EvidenceTypes, keep) <==> keep[i] > 0.3
  {
    assert EvidenceTypes[0][0] == 'L' && EvidenceTypes[1][0] == 'C' && EvidenceTypes[2][0] == 'P';
    SelectedExactly(EvidenceTypes, keep, i);
  }

  /** generateEvidenceSummary: illustrative values, independent of the impact score. */
  function Summarize(d: Draw): (s: Summary)
    ensures IsSubsequence(s.sources, EvidenceTypes)
    ensures 10 <= s.publications <= 59
    ensures 1 <= s.trials <= 5
    ensures 0.6 <= s.confidence < 1.0
  {
    Summary(Selected(EvidenceTypes, d.keep), RandomBelow(d.publications, 50) + 10,
            RandomBelow(d.trials, 5) + 1, d.confidence * 0.4 + 0.6)
  }

  // ---------------------------------------------------------------------------
  // The matrix

  datatype Cell = Cell(component: string, disease: string, impact: real, evidence: Summary,
                       componentType: ComponentType, diseaseKey: string)

  function MakeCell(component: string, disease: string, d: Draw): Cell
  {
    Cell(component, disease, ImpactScore(component, disease, d.jitter), Summarize(d),
         TypeOf(component), DiseaseKey(disease))
  }

  /** One draw record for every (component, disease) pair, indexed component first. */
  predicate DrawsFit(draws: seq<seq<Draw>>, rows: nat, cols: nat) {
    |draws| == rows
    && (forall ci :: 0 <= ci < rows ==> |draws[ci]| == cols)
  }

  /** The cells of one component, one per disease in column order. */
  function Row(component: string, ds: seq<string>, row: seq<Draw>): (r: seq<Cell>)
    requires |row| == |ds|
    ensures |r| == |ds|
  {
    seq(|ds|, di requires 0 <= di < |ds| => MakeCell(component, ds[di], row[di]))
  }

  lemma RowAt(component: string, ds: seq<string>, row: seq<Draw>, di: nat)
    requires |row| == |ds|
    requires di < |ds|
    ensures Row(component, ds, row)[di] == MakeCell(component, ds[di], row[di])
  {
  }

  /** Pushing the cell of one more disease extends the row by that cell. */
  lemma RowSnoc(component: string, ds: seq<string>, row: seq<Draw>, di: nat)
    requires |row| == |ds|
    requires di < |ds|
    ensures Row(component, ds[..di + 1], row[..di + 1])
         == Row(component, ds[..di], row[..di]) + [MakeCell(component, ds[di], row[di])]
  {
    var a := Row(component, ds[..di + 1], row[..di + 1]);
    var b := Row(component, ds[..di], row[..di]) + [MakeCell(component, ds[di], row[di])];
    assert |a| == di + 1 == |b|;
    forall j | 0 <= j < |a| ensures a[j] == b[j] {
      RowAt(component, ds[..di + 1], row[..di + 1], j);
      assert ds[..di + 1][j] == ds[j] && row[..di + 1][j] == row[j];
      if j < di {
        RowAt(component, ds[..di], row[..di], j);
        assert ds[..di][j] == ds[j] && row[..di][j] == row[j];
      }
    }
  }

  /** The rows of `comps`, component-major, as the nested loops push them. */
  function Grid(comps: seq<string>, ds: seq<string>, draws: seq<seq<Draw>>): seq<Cell>
    requires DrawsFit(draws, |comps|, |ds|)
    decreases |comps|
  {
    if comps == [] then []
    else
      var n := |comps| - 1;
      Grid(comps[..n], ds, draws[..n]) + Row(comps[n], ds, draws[n])
  }

  /** The draws of the first n components fit the first n rows. */
  lemma DrawsFitPrefix(draws: seq<seq<Draw>>, rows: nat, cols: nat, n: nat)
    requires DrawsFit(draws, rows, cols) && n <= rows
    ensures DrawsFit(draws[..n], n, cols)
  {
    forall ci | 0 <= ci < n ensures draws[..n][ci] == draws[ci] {
    }
  }

  /** The loops' step: the grid of one more component is the old grid and that component's row. */
  lemma GridSnoc(comps: seq<string>, ds: seq<string>, draws: seq<seq<Draw>>, ci: nat)
    requires DrawsFit(draws, |comps|, |ds|) && ci < |comps|
    ensures DrawsFit(draws[..ci], ci, |ds|) && DrawsFit(draws[..ci + 1], ci + 1, |ds|)
    ensures Grid(comps[..ci + 1], ds, draws[..ci + 1]) == Grid(comps[..ci], ds, draws[..ci]) + Row(comps[ci], ds, draws[ci])
  {
    DrawsFitPrefix(draws, |comps|, |ds|, ci);
    DrawsFitPrefix(draws, |comps|, |ds|, ci + 1);
    PrefixStep(comps, ci);
    PrefixStep(draws, ci);
    GridLast(comps[..ci + 1], ds, draws[..ci + 1]);
  }

  lemma PrefixStep<T>(s: seq<T>, n: nat)
    requires n < |s|
    ensures |s[..n + 1]| - 1 == n && s[..n + 1][..n] == s[..n] && s[..n + 1][n] == s[n]
  {
    assert s[..n + 1][..n] == s[..n];
  }

  /** Unfolds Grid once at its last component. */
  lemma GridLast(cs: seq<string>, ds: seq<string>, dr: seq<seq<Draw>>)
    requires DrawsFit(dr, |cs|, |ds|) && cs != []
    ensures DrawsFit(dr[..|cs| - 1], |cs| - 1, |ds|)
    ensures Grid(cs, ds, dr) == Grid(cs[..|cs| - 1], ds, dr[..|cs| - 1]) + Row(cs[|cs| - 1], ds, dr[|cs| - 1])
  {
    DrawsFitPrefix(dr, |cs|, |ds|, |cs| - 1);
  }

  lemma {:induction false} GridLength(comps: seq<string>, ds: seq<string>, draws: seq<seq<Draw>>)
    requires DrawsFit(draws, |comps|, |ds|)
    ensures |Grid(comps, ds, draws)| == |comps| * |ds|
    decreases |comps|
  {
    if comps != [] {
      var n := |comps| - 1;
      GridLength(comps[..n], ds, draws[..n]);
    }
  }

  /** The cell of component ci and disease di sits at index ci * D + di. */
  lemma {:induction false} GridAt(comps: seq<string>, ds: seq<string>, draws: seq<seq<Draw>>, ci: nat, di: nat)
    requires DrawsFit(draws, |comps|, |ds|)
    requires ci < |comps| && di < |ds|
    ensures ci * |ds| + di < |Grid(comps, ds, draws)|
    ensures Grid(comps, ds, draws)[ci * |ds| + di] == MakeCell(comps[ci], ds[di], draws[ci][di])
    decreases |comps|
  {
    var n := |comps| - 1;
    GridLength(comps, ds, draws);
    GridLength(comps[..n], ds, draws[..n]);
    if ci < n {
      GridAt(comps[..n], ds, draws[..n], ci, di);
    } else {
      assert ci * |ds| + di == n * |ds| + di;
      RowAt(comps[n], ds, draws[n], di);
    }
  }

  /** The component and disease of the cell at ci * D + di. */
  lemma GridKeyAt(comps: seq<string>, ds: seq<string>, draws: seq<seq<Draw>>, ci: nat, di: nat)
    requires DrawsFit(draws, |comps|, |ds|)
    requires ci < |comps| && di < |ds|
    ensures ci * |ds| + di < |Grid(comps, ds, draws)|
    ensures Grid(comps, ds, draws)[ci * |ds| + di].component == comps[ci]
    ensures Grid(comps, ds, draws)[ci * |ds| + di].disease == ds[di]
  {
    GridAt(comps, ds, draws, ci, di);
  }

  /** Every index of the grid is ci * D + di for some component ci and disease di. */
  lemma {:induction false} GridIndex(comps: seq<string>, ds: seq<string>, draws: seq<seq<Draw>>, k: nat)
    returns (ci: nat, di: nat)
    requires DrawsFit(draws, |comps|, |ds|)
    requires k < |Grid(comps, ds, draws)|
    ensures ci < |comps| && di < |ds| && k == ci * |ds| + di
    decreases |comps|
  {
    var n := |comps| - 1;
    GridLength(comps[..n], ds, draws[..n]);
    if k < n * |ds| {
      ci, di := GridIndex(comps[..n], ds, draws[..n], k);
    } else {
      ci, di := n, k - n * |ds|;
    }
  }

  /** createHeatmapData's cells for a payload's diseases. */
  function HeatmapCells(ds: seq<string>, draws: seq<seq<Draw>>): seq<Cell>
    requires DrawsFit(draws, |Components|, |ds|)
  {
    Grid(Components, ds, draws)
  }

  /**
   * Seven cells per disease, component-major: the cell at ci * D + di pairs component
   * ci with disease di and carries its draws' score and summary.
   */
  lemma HeatmapShape(ds: seq<string>, draws: seq<seq<Draw>>)
    requires DrawsFit(draws, |Components|, |ds|)
    ensures |HeatmapCells(ds, draws)| == 7 * |ds|
    ensures forall ci, di :: 0 <= ci < 7 && 0 <= di < |ds| ==>
      HeatmapCells(ds, draws)[ci * |ds| + di] == MakeCell(Components[ci], ds[di], draws[ci][di])
  {
    GridLength(Components, ds, draws);
    forall ci, di | 0 <= ci < 7 && 0 <= di < |ds|
      ensures HeatmapCells(ds, draws)[ci * |ds| + di] == MakeCell(Components[ci], ds[di], draws[ci][di])
    {
      GridAt(Components, ds, draws, ci, di);
    }
  }

  /**
   * With distinct disease names the matrix is dense and keyed: the cell at index k
   * has component ci and disease di exactly when k == ci * D + di.
   */
  lemma HeatmapOneCellPerPair(ds: seq<string>, draws: seq<seq<Draw>>, ci: nat, di: nat, k: nat)
    requires DrawsFit(draws, |Components|, |ds|) && Distinct(ds)
    requires ci < 7 && di < |ds| && k < |HeatmapCells(ds, draws)|
    ensures HeatmapCells(ds, draws)[k].component == Components[ci] && HeatmapCells(ds, draws)[k].disease == ds[di]
        <==> k == ci * |ds| + di
  {
    var cells := HeatmapCells(ds, draws);
    var ci', di' := GridIndex(Components, ds, draws, k);
    GridKeyAt(Components, ds, draws, ci', di');
    GridKeyAt(Components, ds, draws, ci, di);
    if cells[k].component == Components[ci] && cells[k].disease == ds[di] {
      if ci' != ci {
        ComponentsDistinct(ci', ci);
      }
    }
  }

  /** In a list where a component and a disease determine the cell, no pair appears twice with different data. */
  predicate PairsDetermineCells(cells: seq<Cell>) {
    forall x, y :: x in cells && y in cells && x.component == y.component && x.disease == y.disease ==> x == y
  }

  /** Two cells of the matrix with the same component and disease are the same cell. */
  lemma HeatmapKeyedByPair(ds: seq<string>, draws: seq<seq<Draw>>, kx: nat, ky: nat)
    requires DrawsFit(draws, |Components|, |ds|) && Distinct(ds)
    requires kx < |HeatmapCells(ds, draws)| && ky < |HeatmapCells(ds, draws)|
    requires HeatmapCells(ds, draws)[kx].component == HeatmapCells(ds, draws)[ky].component
    requires HeatmapCells(ds, draws)[kx].disease == HeatmapCells(ds, draws)[ky].disease
    ensures kx == ky
  {
    var ci, di := GridIndex(Components, ds, draws, kx);
    var cj, dj := GridIndex(Components, ds, draws, ky);
    GridKeyAt(Components, ds, draws, ci, di);
    GridKeyAt(Components, ds, draws, cj, dj);
    assert Components[ci] == Components[cj] && ds[di] == ds[dj];
    if ci != cj {
      ComponentsDistinct(ci, cj);
    }
    assert di == dj;
  }

  lemma HeatmapPairsDetermineCells(ds: seq<string>, draws: seq<seq<Draw>>)
    requires DrawsFit(draws, |Components|, |ds|) && Distinct(ds)
    ensures PairsDetermineCells(HeatmapCells(ds, draws))
  {
    var cells := HeatmapCells(ds, draws);
    forall x, y | x in cells && y in cells && x.component == y.component && x.disease == y.disease
      ensures x == y
    {
      var kx :| 0 <= kx < |cells| && cells[kx] == x;
      var ky :| 0 <= ky < |cells| && cells[ky] == y;
      HeatmapKeyedByPair(ds, draws, kx, ky);
    }
  }

  // ---------------------------------------------------------------------------
  // Colours and labels

  datatype Colour = StrongPositive | ModeratePositive | Neutral | ModerateNegative | StrongNegative

  /** getColorForImpact, as the bucket it picks. */
  function ColourFor(impact: real): (c: Colour)
    ensures c == StrongPositive <==> impact > 0.7
    ensures c == ModeratePositive <==> 0.3 < impact <= 0.7
    ensures c == Neutral <==> -0.3 < impact <= 0.3
    ensures c == ModerateNegative <==> -0.7 < impact <= -0.3
    ensures c == StrongNegative <==> impact <= -0.7
  {
    if impact > 0.7 then StrongPositive
    else if impact > 0.3 then ModeratePositive
    else if impact > -0.3 then Neutral
    else if impact > -0.7 then ModerateNegative
    else StrongNegative
  }

  /** The fill each bucket is drawn with. */
  function Hex(c: Colour): string {
    match c
    case StrongPositive => "#dc2626"
    case ModeratePositive => "#f97316"
    case Neutral => "#64748b"
    case ModerateNegative => "#3b82f6"
    case StrongNegative => "#1e40af"
  }

  /** The buckets in scale order, strongest inhibition first. */
  function Step(c: Colour): nat {
    match c
    case StrongNegative => 0
    case ModerateNegative => 1
    case Neutral => 2
    case ModeratePositive => 3
    case StrongPositive => 4
  }

  /** A larger impact never gets a colour lower on the scale. */
  lemma ColourMonotone(a: real, b: real)
    requires a <= b
    ensures Step(ColourFor(a)) <= Step(ColourFor(b))
  {
  }

  datatype Direction = Activation | Inhibition

  /** The tooltip's direction line: strictly positive is activation, zero counts as inhibition. */
  function DirectionOf(impact: real): (d: Direction)
    ensures d == Activation <==> impact > 0.0
  {
    if impact > 0.0 then Activation else Inhibition
  }

  /** Generated scores are never below 0.1, so every generated cell shows as an activation. */
  lemma GeneratedCellsActivate(component: string, disease: string, d: Draw)
    ensures DirectionOf(MakeCell(component, disease, d).impact) == Activation
    ensures Step(ColourFor(MakeCell(component, disease, d).impact)) >= 2
  {
  }

  // ---------------------------------------------------------------------------
  // Filters

  /** The seven checkboxes. */
  datatype Filters = Filters(jak: bool, stat: bool, ra: bool, vitiligo: bool, uc: bool,
                             showValues: bool, showEvidence: bool)

  const AllOn: Filters := Filters(true, true, true, true, true, true, true)

  /** The applyFilters predicate: a cell survives unless one of its flags is off. */
  predicate Keep(f: Filters, c: Cell) {
    !(!f.jak && c.componentType == Jak)
    && !(!f.stat && c.componentType == Stat)
    && !(!f.ra && c.disease == RheumatoidArthritis)
    && !(!f.vitiligo && c.disease == Vitiligo)
    && !(!f.uc && c.disease == UlcerativeColitis)
  }

  /** The checkbox of a component type. */
  function TypeFlag(f: Filters, t: ComponentType): bool {
    match t
    case Jak => f.jak
    case Stat => f.stat
  }

  /**
   * A cell is dropped exactly when its component type's flag is off or it belongs to
   * one of the three filterable diseases whose flag is off; other diseases are only
   * ever dropped by the component flags.
   */
  lemma KeepExactly(f: Filters, c: Cell)
    ensures Keep(f, c) <==>
      TypeFlag(f, c.componentType)
      && (c.disease == RheumatoidArthritis ==> f.ra)
      && (c.disease == Vitiligo ==> f.vitiligo)
      && (c.disease == UlcerativeColitis ==> f.uc)
    ensures c.disease !in {RheumatoidArthritis, Vitiligo, UlcerativeColitis} ==>
      (Keep(f, c) <==> TypeFlag(f, c.componentType))
    ensures Keep(AllOn, c)
  {
  }

  /** `heatmapData.filter(...)`, element by element from the front. */
  function FilterCells(cells: seq<Cell>, f: Filters): (r: seq<Cell>)
    ensures IsSubsequence(r, cells)
    decreases |cells|
  {
    if cells == [] then []
    else
      var n := |cells| - 1;
      var pre := FilterCells(cells[..n], f);
      assert cells == cells[..n] + [cells[n]];
      SubsequenceExtend(pre, cells[..n], cells[n]);
      if Keep(f, cells[n]) then pre + [cells[n]] else pre
  }

  /** Filtering one more cell appends it exactly when the flags keep it. */
  lemma FilterCellsSnoc(cells: seq<Cell>, f: Filters, k: nat)
    requires k < |cells|
    ensures FilterCells(cells[..k + 1], f)
         == FilterCells(cells[..k], f) + (if Keep(f, cells[k]) then [cells[k]] else [])
  {
    assert cells[..k + 1][..k] == cells[..k];
  }

  /** A cell is drawn exactly when it is in the matrix and the flags keep it. */
  lemma {:induction false} FilterCellsMembers(cells: seq<Cell>, f: Filters)
    ensures forall x :: x in FilterCells(cells, f) <==> x in cells && Keep(f, x)
    decreases |cells|
  {
    if cells != [] {
      var n := |cells| - 1;
      FilterCellsMembers(cells[..n], f);
      assert cells == cells[..n] + [cells[n]];
    }
  }

  /** When the flags keep every cell, filtering changes nothing. */
  lemma {:induction false} FilterKeepsAll(cells: seq<Cell>, f: Filters)
    requires forall x :: x in cells ==> Keep(f, x)
    ensures FilterCells(cells, f) == cells
    decreases |cells|
  {
    if cells != [] {
      var n := |cells| - 1;
      assert cells == cells[..n] + [cells[n]];
      FilterKeepsAll(cells[..n], f);
    }
  }

  /** With every flag on, nothing is filtered out. */
  lemma FilterAllOn(cells: seq<Cell>)
    ensures FilterCells(cells, AllOn) == cells
  {
    forall x | x in cells ensures Keep(AllOn, x) {
      KeepExactly(AllOn, x);
    }
    FilterKeepsAll(cells, AllOn);
  }

  // ---------------------------------------------------------------------------
  // Click highlight and crosstalk

  /** The cells the click highlights: those sharing the clicked cell's row or column. */
  function RowColumnMarks(cells: seq<Cell>, c: Cell): (marks: seq<bool>)
    ensures |marks| == |cells|
    ensures forall k :: 0 <= k < |cells| ==>
      (marks[k] <==> cells[k].component == c.component || cells[k].disease == c.disease)
  {
    seq(|cells|, k requires 0 <= k < |cells| => cells[k].component == c.component || cells[k].disease == c.disease)
  }

  /** showCrosstalk's related cells: same disease, |impact| > 0.5, another component. */
  function Related(cells: seq<Cell>, c: Cell): (r: seq<Cell>)
    ensures IsSubsequence(r, cells)
    ensures forall x :: x in r <==>
      x in cells && x.disease == c.disease && Abs(x.impact) > 0.5 && x.component != c.component
    decreases |cells|
  {
    if cells == [] then []
    else
      var n := |cells| - 1;
      var pre := Related(cells[..n], c);
      assert cells == cells[..n] + [cells[n]];
      SubsequenceExtend(pre, cells[..n], cells[n]);
      var x := cells[n];
      if x.disease == c.disease && Abs(x.impact) > 0.5 && x.component != c.component then pre + [x] else pre
  }

  /** `relatedComponents.some(rc => rc.component === d.component && rc.disease === d.disease)` */
  predicate MatchesSome(related: seq<Cell>, d: Cell) {
    exists rc :: rc in related && rc.component == d.component && rc.disease == d.disease
  }

  /** The outline flags after showCrosstalk: earlier outlines stay, matching cells are added. */
  function CrosstalkOutlines(outlined: seq<bool>, cells: seq<Cell>, c: Cell): (r: seq<bool>)
    requires |outlined| == |cells|
    ensures |r| == |cells|
    ensures forall k :: 0 <= k < |cells| ==> (r[k] <==> outlined[k] || MatchesSome(Related(cells, c), cells[k]))
  {
    var related := Related(cells, c);
    seq(|cells|, k requires 0 <= k < |cells| => outlined[k] || MatchesSome(related, cells[k]))
  }

  /**
   * When a component and a disease determine the cell, the crosstalk outline falls on
   * exactly the cells of the clicked disease with |impact| > 0.5 and another component.
   */
  lemma CrosstalkExactly(cells: seq<Cell>, c: Cell, d: Cell)
    requires PairsDetermineCells(cells) && d in cells
    ensures MatchesSome(Related(cells, c), d) <==>
      d.disease == c.disease && Abs(d.impact) > 0.5 && d.component != c.component
  {
    var related := Related(cells, c);
    if MatchesSome(related, d) {
      var rc :| rc in related && rc.component == d.component && rc.disease == d.disease;
      assert rc == d;
    }
  }

  // ---------------------------------------------------------------------------
  // The view

  class MolecularHeatmap {
    var analysisData: Option<Payload>
    var heatmapData: seq<Cell>
    var filteredData: seq<Cell>
    var crosstalkMode: bool
    var selectedCell: Option<Cell>
    var filters: Filters
    /** the `highlighted` class of each drawn cell (the drawn cells are filteredData) */
    var cellHl: seq<bool>
    /** whether each drawn cell carries the crosstalk outline */
    var outlined: seq<bool>
    /** the `active` class of the crosstalk indicator */
    var indicator: bool

    ghost predicate Valid()
      reads this
    {
      && (analysisData.None? ==> heatmapData == [] && filteredData == [])
      && (analysisData.Some? ==> |heatmapData| == |Components| * |analysisData.value.opportunities|)
      && IsSubsequence(filteredData, heatmapData)
      && |cellHl| == |filteredData| && |outlined| == |filteredData|
    }

    constructor ()
      ensures Valid()
      ensures analysisData.None? && heatmapData == [] && filteredData == []
      ensures !crosstalkMode && selectedCell.None? && filters == AllOn
    {
      analysisData := None;
      heatmapData, filteredData := [], [];
      crosstalkMode := false;
      selectedCell := None;
      filters := AllOn;
      cellHl, outlined := [], [];
      indicator := false;
    }

    /** The 'analysis-data' message: build the cells, then draw all of them. */
    method OnAnalysisData(payload: Payload, cellDraws: seq<seq<Draw>>)
      requires Valid()
      requires DrawsFit(cellDraws, |Components|, |payload.opportunities|)
      modifies this
      ensures Valid()
      ensures analysisData == Some(payload)
      ensures heatmapData == HeatmapCells(Diseases(payload.opportunities), cellDraws)
      ensures filteredData == heatmapData
      ensures cellHl == seq(|filteredData|, _ => false) && outlined == seq(|filteredData|, _ => false)
      ensures filters == old(filters) && crosstalkMode == old(crosstalkMode)
      ensures selectedCell == old(selectedCell) && indicator == old(indicator)
    {
      analysisData := Some(payload);
      GridLength(Components, Diseases(payload.opportunities), cellDraws);
      CreateHeatmapData(Diseases(payload.opportunities), cellDraws);
      assert IsSubsequence(filteredData, heatmapData) by {
        SubsequenceReflexive(heatmapData);
      }
      RenderHeatmap();
    }

    /** createHeatmapData: two nested loops push one cell per (component, disease). */
    method CreateHeatmapData(ds: seq<string>, cellDraws: seq<seq<Draw>>)
      requires DrawsFit(cellDraws, |Components|, |ds|)
      modifies this`heatmapData, this`filteredData
      ensures heatmapData == HeatmapCells(ds, cellDraws) && filteredData == heatmapData
    {
      var comps := Components;
      var cells: seq<Cell> := [];
      var ci := 0;
      while ci < |comps|
        invariant 0 <= ci <= |comps|
        invariant DrawsFit(cellDraws[..ci], ci, |ds|)
        invariant cells == Grid(comps[..ci], ds, cellDraws[..ci])
      {
        var row := cellDraws[ci];
        var di := 0;
        while di < |ds|
          invariant 0 <= di <= |ds|
          invariant cells == Grid(comps[..ci], ds, cellDraws[..ci]) + Row(comps[ci], ds[..di], row[..di])
        {
          RowSnoc(comps[ci], ds, row, di);
          cells := cells + [MakeCell(comps[ci], ds[di], row[di])];
          di := di + 1;
        }
        assert ds[..di] == ds && row[..di] == row;
        GridSnoc(comps, ds, cellDraws, ci);
        ci := ci + 1;
      }
      assert comps[..ci] == comps && cellDraws[..ci] == cellDraws;
      heatmapData := cells;
      filteredData := heatmapData;
    }

    /** renderHeatmap: a fresh drawing of filteredData, with no highlight or outline. */
    method RenderHeatmap()
      modifies this`cellHl, this`outlined
      ensures cellHl == seq(|filteredData|, _ => false) && outlined == seq(|filteredData|, _ => false)
    {
      cellHl := seq(|filteredData|, _ => false);
      outlined := seq(|filteredData|, _ => false);
    }

    /**
     * handleCellClick on drawn cell i: clear every highlight, highlight the cells of
     * its row and column, remember the cell and, in crosstalk mode, outline the
     * related cells.
     */
    method HandleCellClick(i: nat)
      requires Valid() && i < |filteredData|
      modifies this`cellHl, this`selectedCell, this`outlined, this`indicator
      ensures Valid()
      ensures cellHl == RowColumnMarks(filteredData, filteredData[i])
      ensures selectedCell == Some(filteredData[i])
      ensures !crosstalkMode ==> outlined == old(outlined) && indicator == old(indicator)
      ensures crosstalkMode ==>
        outlined == CrosstalkOutlines(old(outlined), filteredData, filteredData[i])
        && indicator == (old(indicator) || Related(filteredData, filteredData[i]) != [])
    {
      var cell := filteredData[i];
      var hl := cellHl;
      var k := 0;
      while k < |hl|
        invariant 0 <= k <= |hl| == |filteredData|
        invariant forall m :: 0 <= m < k ==> !hl[m]
      {
        hl := hl[k := false];
        k := k + 1;
      }
      k := 0;
      while k < |hl|
        invariant 0 <= k <= |hl| == |filteredData|
        invariant forall m :: 0 <= m < |hl| ==>
          (hl[m] <==> m < k && (filteredData[m].component == cell.component || filteredData[m].disease == cell.disease))
      {
        if filteredData[k].component == cell.component || filteredData[k].disease == cell.disease {
          hl := hl[k := true];
        }
        k := k + 1;
      }
      cellHl := hl;
      selectedCell := Some(cell);
      if crosstalkMode {
        ShowCrosstalk(cell);
      }
    }

    /** showCrosstalk: outline every drawn cell matching a related cell, if there is one. */
    method ShowCrosstalk(cell: Cell)
      requires Valid()
      modifies this`outlined, this`indicator
      ensures Valid()
      ensures outlined == CrosstalkOutlines(old(outlined), filteredData, cell)
      ensures indicator == (old(indicator) || Related(filteredData, cell) != [])
    {
      var related := Related(filteredData, cell);
      if related != [] {
        indicator := true;
        var out := outlined;
        var k := 0;
        while k < |out|
          invariant 0 <= k <= |out| == |filteredData|
          invariant forall m :: 0 <= m < |out| ==>
            out[m] == (old(outlined)[m] || (m < k && MatchesSome(related, filteredData[m])))
        {
          if MatchesSome(related, filteredData[k]) {
            out := out[k := true];
          }
          k := k + 1;
        }
        outlined := out;
      } else {
        forall m | 0 <= m < |filteredData| ensures !MatchesSome(related, filteredData[m]) {
        }
      }
    }

    /** The crosstalk button: flip the mode; switching it off clears every outline. */
    method ToggleCrosstalk()
      requires Valid() && analysisData.Some?
      modifies this`crosstalkMode, this`indicator, this`outlined
      ensures Valid()
      ensures crosstalkMode == !old(crosstalkMode) && indicator == crosstalkMode
      ensures crosstalkMode ==> outlined == old(outlined)
      ensures !crosstalkMode ==> outlined == seq(|filteredData|, _ => false)
    {
      crosstalkMode := !crosstalkMode;
      indicator := crosstalkMode;
      if !crosstalkMode {
        outlined := seq(|filteredData|, _ => false);
      }
    }

    /** applyFilters: keep the cells the flags allow, in order, and redraw. */
    method ApplyFilters()
      requires Valid()
      modifies this`filteredData, this`cellHl, this`outlined
      ensures Valid()
      ensures filteredData == FilterCells(heatmapData, filters)
      ensures cellHl == seq(|filteredData|, _ => false) && outlined == seq(|filteredData|, _ => false)
    {
      var cells := heatmapData;
      var kept: seq<Cell> := [];
      var k := 0;
      while k < |cells|
        invariant 0 <= k <= |cells|
        invariant kept == FilterCells(cells[..k], filters)
      {
        FilterCellsSnoc(cells, filters, k);
        if Keep(filters, cells[k]) {
          kept := kept + [cells[k]];
        }
        k := k + 1;
      }
      assert cells[..k] == cells;
      filteredData := kept;
      RenderHeatmap();
    }

    /** One of the five filter checkboxes changed. */
    method SetFilter(flag: FilterFlag, checked: bool)
      requires Valid() && analysisData.Some?
      modifies this`filters, this`filteredData, this`cellHl, this`outlined
      ensures Valid()
      ensures filters == WithFlag(old(filters), flag, checked)
      ensures filteredData == FilterCells(heatmapData, filters)
      ensures cellHl == seq(|filteredData|, _ => false) && outlined == seq(|filteredData|, _ => false)
    {
      filters := WithFlag(filters, flag, checked);
      ApplyFilters();
    }

    /** The 'show values' checkbox: only the drawing changes. */
    method SetShowValues(checked: bool)
      requires Valid() && analysisData.Some?
      modifies this`filters, this`cellHl, this`outlined
      ensures Valid()
      ensures filters == old(filters).(showValues := checked) && filteredData == old(filteredData)
      ensures cellHl == seq(|filteredData|, _ => false) && outlined == seq(|filteredData|, _ => false)
    {
      filters := filters.(showValues := checked);
      RenderHeatmap();
    }

    /** The 'show evidence' checkbox: read by the next tooltip, nothing is redrawn. */
    method SetShowEvidence(checked: bool)
      requires Valid() && analysisData.Some?
      modifies this`filters
      ensures Valid()
      ensures filters == old(filters).(showEvidence := checked)
    {
      filters := filters.(showEvidence := checked);
    }

    /** resetFilters: every flag back on and every cell back in. */
    method ResetFilters()
      modifies this`filters, this`filteredData
      ensures filters == AllOn && filteredData == heatmapData
    {
      filters := AllOn;
      filteredData := heatmapData;
    }

    /** The reset button: resetFilters, then a fresh drawing. */
    method ResetView()
      requires Valid() && analysisData.Some?
      modifies this`filters, this`filteredData, this`cellHl, this`outlined
      ensures Valid()
      ensures filters == AllOn && filteredData == heatmapData
      ensures filteredData == FilterCells(heatmapData, filters)
      ensures cellHl == seq(|filteredData|, _ => false) && outlined == seq(|filteredData|, _ => false)
    {
      ResetFilters();
      FilterAllOn(heatmapData);
      SubsequenceReflexive(heatmapData);
      RenderHeatmap();
      assert |cellHl| == |filteredData| && |outlined| == |filteredData|;
    }
  }

  /** The five checkboxes that refilter. */
  datatype FilterFlag = JakFlag | StatFlag | RaFlag | VitiligoFlag | UcFlag

  function WithFlag(f: Filters, flag: FilterFlag, checked: bool): Filters {
    match flag
    case JakFlag => f.(jak := checked)
    case StatFlag => f.(stat := checked)
    case RaFlag => f.(ra := checked)
    case VitiligoFlag => f.(vitiligo := checked)
    case UcFlag => f.(uc := checked)
  }

  /** Unchecking and re-checking a box restores the drawn cells. */
  lemma FlagRoundTrip(f: Filters, flag: FilterFlag, cells: seq<Cell>)
    requires f == AllOn
    ensures FilterCells(cells, WithFlag(WithFlag(f, flag, false), flag, true)) == cells
  {
    assert WithFlag(WithFlag(f, flag, false), flag, true) == AllOn;
    FilterAllOn(cells);
  }
}
