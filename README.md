# RepurposeQuest AI — a verified model of the front end's core

RepurposeQuest AI is a browser front end for exploring drug-repurposing
opportunities. The entry page (`script.js`, class `RepurposeQuestAI`) takes a
molecule and a target pathway and produces a mock analysis. The analysis holds
literature, trial and patent counts and three disease opportunities, each with a
confidence and tags. Three pop-up views redraw that analysis:

- the network graph (`graph.js`, `NetworkVisualization`): molecule → pathway → one
  node per disease;
- the explainable evidence flow (`ai.js`, `ExplainableAI`): eight fixed evidence
  sources → a pathway hub → one outcome node per disease;
- the molecular impact heatmap (`map.js`, `MolecularHeatmap`): one cell per
  (JAK/STAT component, disease) pair.

The Dafny modules follow those files:

| module | file | models |
|---|---|---|
| `Common`, `Text` | common.dfy | the payload, `Math.random` draws, JavaScript `trim`, `toLowerCase`, `includes`, `startsWith` |
| `Graphs` | graphs.dfy | what both graph views share: edge strengths and stroke widths, tooltip flip, drag pinning, `disease-i` ids, the one-hop click highlight (a method over flag arrays) |
| `EvidenceFlow` | evidence_flow.dfy | `ExplainableAI` as a class: model builder, click highlight, category visibility, flow animator, drag |
| `Heatmap` | heatmap.dfy | `MolecularHeatmap` as a class: matrix builder, impact scores, colours, filters, row/column highlight, crosstalk |
| `Network` | network.dfy | `NetworkVisualization` as a class: model builder, disease click highlight, zoom buttons, tooltip rows, drag |
| `Session` | session.dfy | `RepurposeQuestAI` as a class: the input guard, the mock analysis, the `currentAnalysis` gate, notification fallbacks |
| `Scenarios` | scenarios.dfy | what the three views make of the entry page's mock analysis |

Each view is a class whose fields are the JavaScript object's fields, together
with the drawing state the handlers change:

- highlight flags per node, edge or cell;
- opacities;
- the crosstalk outline;
- pinned positions;
- in-flight particles;
- the zoom scale.

Each handler is a method. Its contract gives the new state in terms of
specification functions (`FlowNodes`, `HeatmapCells`, `FilterCells`, `NodeMarks`, …).
Lemmas state what the views promise about those functions.

Scores are Dafny `real`s, so there is no floating-point rounding. Each call to
`Math.random()` becomes a parameter in [0, 1). The random numbers a builder
consumes are passed in as a sequence of draws in the order the code draws them.

Where the repository's written description and the code disagree, the model
follows the code:

- An outcome tooltip's "Key drivers" come from the edges whose target is the outcome
  node. That is only the hub's edge, so the list is the hub's label alone, not a
  ranking of evidence sources (`EvidenceFlow.KeyDriversOfOutcome`).
- Tooltip placement only flips to the other side of the cursor; it never clamps to
  the container (`Graphs.TooltipMayLeaveContainerOnTheLeft`).
- No payload is validated, and nothing fails fast. A well-formed payload is
  drawn as given. A payload without an `opportunities` list makes the builders
  throw a `TypeError` (`forEach` at graph.js:63, `map` at map.js:55), and the
  view stays on its loading overlay; see "## Left out".
- The crosstalk outline of an earlier click is not cleared by a later click. Only
  switching crosstalk off, or a redraw, clears it.
- TYK2 is classed `stat`, because the type test is `startsWith('JAK')`
  (`Heatmap.ComponentTypes`).

## Model

| member | source | states |
|---|---|---|
| Common.RandomBelow | script.js:62 | `Math.floor(Math.random() * n)` is a natural number below n |
| Common.Clamp | map.js:89 | `Math.max(lo, Math.min(hi, x))` lies in [lo, hi] and is x itself when x is already inside |
| Text.TrimStart | script.js:34 | drops exactly a leading run of white space; the result is a suffix and starts with a non-space |
| Text.TrimEnd | script.js:35 | drops exactly a trailing run of white space; the result is a prefix and ends with a non-space |
| Text.TrimEmptyIff | script.js:34-37 | a trimmed input is empty exactly when the input is all white space (the guard's condition) |
| Text.ToLower | script.js:87 | lower-casing keeps the length and maps each character by itself |
| Text.Contains | script.js:87 | `includes` is true exactly when the pattern occurs at some position |
| Text.NatToStringInjective | graph.js:65 | distinct indices print as distinct decimal strings |
| Graphs.StrokeWidth | graph.js:142-149 | strong, moderate and weak edges get widths 4, 2 and 1, each width for exactly one class |
| Graphs.StrokeWidthMonotone | ai.js:222-229 | a stronger class is always drawn with a strictly thicker line, and only a stronger one |
| Graphs.TooltipCoord | ai.js:381-390 | the tooltip goes 10 px past the cursor unless its far edge would pass the container edge, then 10 px before it; it never covers the cursor |
| Graphs.TooltipMayLeaveContainerOnTheLeft | graph.js:239-248 | the flip can push a wide tooltip past the container's left edge (50, width 300, limit 200 → −260) |
| Graphs.Placed | graph.js:130 | the simulation starts every node at its initial position and unpinned |
| Graphs.DragGestureReleases | graph.js:323-338 | start, any moves, end: the node keeps its simulated position and ends unpinned; alpha target 0.3 during an inactive drag and 0 after it |
| Graphs.MovesKeepPosition | graph.js:329-332 | dragging only moves the pin, to the last cursor position, never the simulated position |
| Graphs.DiseaseIdInjective | graph.js:65 | `disease-i` and `disease-j` are equal exactly when i = j |
| Graphs.DiseaseIdStartsWithD | ai.js:135 | every disease id starts with `d` and is longer than 8 characters, so it differs from the fixed ids |
| Graphs.IndexOf | ai.js:313 | `find` by id returns the first position holding the id, or the length when none does |
| Graphs.ClickHighlight | graph.js:262-280 | clear every flag, then flag the clicked node, its incident edges and their endpoints: the result is the one-hop neighbourhood whatever the flags were before (so a re-click changes nothing) |
| Graphs.NeighbourhoodExtend | ai.js:414-422 | one more edge adds exactly its endpoints to the neighbourhood when it touches the clicked node |
| EvidenceFlow.EvidenceStrength | ai.js:149-152 | evidence edges: strong iff contribution ≥ 0.3, moderate iff in [0.15, 0.3), weak iff < 0.15 |
| EvidenceFlow.OutcomeStrength | ai.js:166-171 | outcome edges: strong iff ≥ 0.7, moderate iff in [0.4, 0.7), weak iff < 0.4 |
| EvidenceFlow.EvidenceEdgesAppend | ai.js:148-161 | the evidence-edge pass distributes over concatenation of the node list |
| EvidenceFlow.FlowNodesShape | ai.js:45-142 | the node list is the 8 roster sources, then the hub, then `DiseaseNode(i, opp_i)` for each opportunity in order |
| EvidenceFlow.FlowEdgesShape | ai.js:145-180 | the edge list is the 8 evidence edges in roster order, then one outcome edge per opportunity in order |
| EvidenceFlow.FlowShape | ai.js:43-181 | 9 + N nodes and 8 + N edges, position by position |
| EvidenceFlow.FlowIds | ai.js:48-135 | node a carries the fixed id `FlowId(a)`, whatever the payload |
| EvidenceFlow.RosterIdsDistinct | ai.js:48-113 | the eight roster ids are pairwise distinct |
| EvidenceFlow.FlowIdsDistinct | ai.js:45-142 | no two nodes share an id |
| EvidenceFlow.FlowCounts | ai.js:45-142 | for N opportunities: 8 evidence nodes, 1 pathway node, N disease nodes, no molecule node, 8 + N edges |
| EvidenceFlow.OutcomeNodeFields | ai.js:133-142 | outcome node i has id `disease-i`, the opportunity's disease as label and its confidence as evidence |
| EvidenceFlow.EvidenceEdgeOfSource | ai.js:148-161 | each evidence node is the source of exactly one edge, to the hub, with its own contribution, category and 0.30/0.15 class |
| EvidenceFlow.RosterStrengths | ai.js:47-161 | of the roster only literature-mechanistic (0.35) and trials-phase2 (0.30) are strong; trials-phase3 is moderate and patents-expired weak |
| EvidenceFlow.OutcomeEdgeOfOpportunity | ai.js:164-180 | opportunity i is the target of exactly one edge, from the hub, carrying confidence × 0.8, category `pathway`, 0.70/0.40 class |
| EvidenceFlow.HubIsTheOnlyIntermediate | ai.js:148-180 | every edge enters the hub from an evidence node or leaves it for an outcome; no evidence → outcome edge |
| EvidenceFlow.ConfidenceEightyFiveIsModerate | ai.js:167-171 | confidence 0.85 gives 0.68, which is only moderate |
| EvidenceFlow.FlowEndpointsResolve | ai.js:210 | every edge endpoint is the id of some node, so the link force resolves every edge |
| EvidenceFlow.StarClick | ai.js:401-423 | in a star with distinct ids, clicking a spoke flags exactly the spoke, the hub and the edge between them |
| EvidenceFlow.EvidenceClickHighlight | ai.js:401-423 | clicking evidence node k flags exactly node k, the hub and edge k |
| EvidenceFlow.ConfidenceBucket | ai.js:305 | High iff ≥ 0.8, Medium iff in [0.6, 0.8), Low iff < 0.6 |
| EvidenceFlow.InsertByContribution | ai.js:310 | inserting into a descending list keeps it descending and adds exactly that edge |
| EvidenceFlow.SortByContribution | ai.js:310 | the sort's result is descending by contribution and a permutation of its input |
| EvidenceFlow.EdgesInto | ai.js:309 | `filter` keeps exactly the edges whose target is the hovered id, all of them, in list order (an order-preserving subsequence) |
| EvidenceFlow.EdgesIntoOne | ai.js:309 | with exactly one edge into the id, the filter yields exactly that edge |
| EvidenceFlow.KeyDriversOfSingleEdge | ai.js:308-315 | with exactly one edge into the node, the key drivers are that edge's source label alone |
| EvidenceFlow.HubLabel | ai.js:313 | the id `pathway` resolves to the hub node |
| EvidenceFlow.KeyDriversOfOutcome | ai.js:308-315 | an outcome node's key drivers are always exactly the hub's label |
| EvidenceFlow.FindResolvedFails | ai.js:360-361 | `find(n => n.id === endpoint)` never matches an endpoint that is a node object |
| EvidenceFlow.EdgeTooltipFailsOnBuiltModel | ai.js:357-361 | as written, hovering any edge of the drawn model finds no node for its endpoints (the `.label` read throws) |
| EvidenceFlow.FindEndpoint | ai.js:313 | the corrected lookup finds a node with the endpoint's id, and always finds one for a node object |
| EvidenceFlow.EdgeTooltipOfEvidenceEdge | ai.js:357-361 | corrected: evidence edge k shows source k's label and the hub's label |
| EvidenceFlow.EdgeTooltipOfOutcomeEdge | ai.js:357-361 | corrected: the edge of opportunity i shows the hub's label and the disease |
| EvidenceFlow.NodeOpacity | ai.js:465-471 | a node is at 0.1 exactly when it is an evidence node of a category that is not truthy; otherwise 1 |
| EvidenceFlow.EdgeOpacity | ai.js:473-479 | an edge is at 0.1 exactly when it is a literature, trials or patents edge whose category is off; otherwise 0.6 |
| EvidenceFlow.HideCategory | ai.js:448-479 | unchecking a category ghosts exactly its nodes and edges and nothing else; checking it again restores every opacity |
| EvidenceFlow.PathwayEdgesNeverSpawn | ai.js:496 | `evidenceStates` has no `pathway` key, so no tick ever spawns a particle on an outcome edge |
| EvidenceFlow.ParticleDuration | ai.js:504 | a particle's duration lies in [2000, 3000) |
| EvidenceFlow.Progress | ai.js:509 | progress is at most 1, non-negative for non-negative elapsed time, and 1 exactly when elapsed ≥ duration |
| EvidenceFlow.Lerp | ai.js:511-512 | the interpolated point is the source at 0, the target at 1, and between them in between |
| EvidenceFlow.LanesOrdered | ai.js:285-294 | for a positive width the lanes sit at 0.15·w < 0.5·w < 0.85·w, inside the container |
| EvidenceFlow.LabelsClearCircles | ai.js:247-269 | each node type's label offset exceeds its circle radius |
| EvidenceFlow.DisplayLabel | ai.js:270 | labels up to 15 characters are kept; longer ones become their first 12 characters and `...` |
| EvidenceFlow.ExplainableAI.constructor | ai.js:3-18 | no data, no nodes or edges, animation stopped, all three categories visible |
| EvidenceFlow.ExplainableAI.OnAnalysisData | ai.js:28-36 | the message rebuilds nodes and edges from the payload and redraws: no highlight, no opacity override, no particle; states and animation handle kept |
| EvidenceFlow.ExplainableAI.CreateEvidenceFlowData | ai.js:43-181 | the push loops build exactly `FlowNodes` and `FlowEdges` of the opportunities |
| EvidenceFlow.ExplainableAI.RenderGraph | ai.js:183-283 | a fresh drawing: nodes at their initial positions and unpinned, no highlight, inline opacities and particles gone |
| EvidenceFlow.ExplainableAI.HandleNodeClick | ai.js:401-423 | a non-evidence click changes nothing; an evidence click sets the highlight to exactly the node's one-hop neighbourhood |
| EvidenceFlow.ExplainableAI.SetEvidenceState | ai.js:448-461 | once data has arrived (the checkboxes are wired at ai.js:33), a checkbox sets its category's flag and restyles every node and edge from the new flags |
| EvidenceFlow.ExplainableAI.UpdateEvidenceVisibility | ai.js:464-480 | every node and edge opacity is recomputed from the current flags, in order |
| EvidenceFlow.ExplainableAI.ToggleFlowAnimation | ai.js:482-490 | running → stopped with the handle cleared and every particle removed; stopped → running with the new, non-zero interval handle |
| EvidenceFlow.ExplainableAI.FlowTick | ai.js:493-502 | a tick picks an edge; it spawns a particle at the source's position exactly when the edge's category is truthy in `evidenceStates` |
| EvidenceFlow.AfterFrame | ai.js:507-522 | a frame moves the particle to source + (target − source) · elapsed/duration while elapsed < duration, inside the segment, leaving every other particle alone; once elapsed ≥ duration it removes exactly that particle |
| EvidenceFlow.ExplainableAI.MoveParticle | ai.js:507-523 | the first particle with the id is advanced by `AfterFrame` between the current positions of its edge's endpoints; a frame for a vanished particle changes nothing |
| EvidenceFlow.ExplainableAI.DragStarted | ai.js:530-534 | pins the node where it is; alpha target 0.3 unless another drag is active |
| EvidenceFlow.ExplainableAI.Dragged | ai.js:536-539 | moves only the dragged node's pin to the cursor |
| EvidenceFlow.ExplainableAI.DragEnded | ai.js:541-545 | releases the pin; alpha target 0 unless another drag is active |
| Heatmap.TypeOf | map.js:69 | `jak` exactly when the component starts with `JAK`, else `stat` |
| Heatmap.ComponentTypes | map.js:49-69 | JAK1–JAK3 are `jak`; TYK2 and the STATs are `stat` |
| Heatmap.ComponentsDistinct | map.js:49-52 | the seven component names are pairwise distinct |
| Heatmap.Diseases | map.js:55 | the columns are the opportunities' diseases, in payload order |
| Heatmap.UnderscoreSpaces | map.js:70 | the result has no white space, is no longer than the input, and is the input when it had none |
| Heatmap.UnderscoreRun | map.js:70 | a maximal run of white space becomes exactly one underscore, and the text on either side is rewritten on its own |
| Heatmap.DiseaseKeyShape | map.js:70 | a disease key has no white space and is no longer than the disease name |
| Heatmap.DiseaseKeyRun | map.js:70 | two pieces of a disease name separated by a white-space run key as their two keys joined by one underscore |
| Heatmap.FactorRange | map.js:80-84 | every table factor lies in [0.2, 0.9] |
| Heatmap.BaseScore | map.js:86 | the table value for the pair, or 0.5 when the disease or component is missing |
| Heatmap.Variation | map.js:88 | the jitter lies in [−0.1, 0.1) |
| Heatmap.ImpactScore | map.js:78-90 | the score lies in [−1, 1], within 0.1 of its base, and in fact in [0.1, 1), so the clamp never acts |
| Heatmap.UnknownDiseaseScore | map.js:86-89 | a disease outside the table scores in [0.4, 0.6) against every component |
| Heatmap.Selected | map.js:94 | the kept sources are an order-preserving subsequence of the types, containing every type whose draw exceeds 0.3 |
| Heatmap.SelectedExactly | map.js:94 | with distinct types, a type is kept exactly when its draw exceeds 0.3 |
| Heatmap.EvidenceSourceListed | map.js:93-94 | each of the three evidence sources is listed exactly when its draw exceeds 0.3 |
| Heatmap.Summarize | map.js:92-102 | sources are a subsequence of the three types; publications in [10, 59], trials in [1, 5], confidence in [0.6, 1) |
| Heatmap.RowSnoc | map.js:60-71 | pushing the cell of one more disease extends the component's row by exactly that cell |
| Heatmap.GridSnoc | map.js:59-73 | finishing one more component appends exactly its row to the cells so far |
| Heatmap.GridLength | map.js:59-73 | C components and D diseases give C·D cells |
| Heatmap.GridAt | map.js:59-73 | the cell at ci·D + di is the cell of component ci and disease di, with its own draws |
| Heatmap.GridIndex | map.js:59-73 | every index of the cells is ci·D + di for some component and disease |
| Heatmap.HeatmapShape | map.js:47-75 | exactly 7·D cells, component-major, the cell at ci·D + di built from its pair and draws |
| Heatmap.HeatmapOneCellPerPair | map.js:59-73 | with distinct diseases, index k holds component ci and disease di exactly when k = ci·D + di |
| Heatmap.HeatmapKeyedByPair | map.js:59-73 | with distinct diseases, two cells with the same component and disease are at the same index |
| Heatmap.HeatmapPairsDetermineCells | map.js:59-73 | with distinct diseases, a (component, disease) pair determines its cell |
| Heatmap.ColourFor | map.js:104-111 | five disjoint buckets with strict `>` thresholds at 0.7, 0.3, −0.3, −0.7 |
| Heatmap.ColourMonotone | map.js:104-111 | a larger impact never gets a colour lower on the scale |
| Heatmap.DirectionOf | map.js:240 | Activation exactly when impact > 0; zero is Inhibition |
| Heatmap.GeneratedCellsActivate | map.js:86-89 | every generated cell shows as an activation and is coloured neutral or warmer |
| Heatmap.KeepExactly | map.js:379-390 | a cell is dropped exactly when its type flag is off or it is RA, Vitiligo or UC with that flag off; other diseases only by type; all flags on keeps it |
| Heatmap.FilterCells | map.js:379-390 | the filtered cells are an order-preserving subsequence of the cells |
| Heatmap.FilterCellsMembers | map.js:379-390 | a cell is drawn exactly when it is in the matrix and the flags keep it |
| Heatmap.FilterKeepsAll | map.js:379-390 | when the flags keep every cell, filtering returns the cells unchanged |
| Heatmap.FilterAllOn | map.js:379-390 | with every flag on, nothing is filtered out |
| Heatmap.FlagRoundTrip | map.js:341-365 | from all flags on, unchecking and re-checking any filter box restores every cell |
| Heatmap.RowColumnMarks | map.js:278-283 | a drawn cell is highlighted exactly when it shares the clicked cell's component or disease |
| Heatmap.Related | map.js:295-300 | the related cells are a subsequence of the drawn cells: same disease, \|impact\| > 0.5, another component, and all such cells |
| Heatmap.CrosstalkOutlines | map.js:306-311 | after showCrosstalk a cell is outlined exactly when it was before or matches a related cell |
| Heatmap.CrosstalkExactly | map.js:295-311 | when pairs determine cells, the outline falls on exactly the same-disease, \|impact\| > 0.5, other-component cells |
| Heatmap.MolecularHeatmap.constructor | map.js:3-22 | no data, no cells, crosstalk off, nothing selected, all seven flags on |
| Heatmap.MolecularHeatmap.OnAnalysisData | map.js:32-40 | the message builds the cells of the payload's diseases and draws all of them with no highlight or outline; flags, mode, selection and crosstalk indicator kept |
| Heatmap.MolecularHeatmap.CreateHeatmapData | map.js:47-76 | the nested push loops build exactly `HeatmapCells`, and `filteredData` starts as all of them |
| Heatmap.MolecularHeatmap.RenderHeatmap | map.js:113-157 | a fresh drawing of `filteredData` with no highlight and no outline |
| Heatmap.MolecularHeatmap.HandleCellClick | map.js:273-291 | highlight becomes exactly the clicked cell's row and column, whatever it was; the cell is selected; in crosstalk mode the related cells are outlined |
| Heatmap.MolecularHeatmap.ShowCrosstalk | map.js:293-313 | outlines exactly the drawn cells matching a related cell, keeps earlier outlines, and lights the indicator iff some cell is related |
| Heatmap.MolecularHeatmap.ToggleCrosstalk | map.js:329-338 | once data has arrived (the controls are wired at map.js:37), flips the mode and the indicator with it; switching off clears every outline |
| Heatmap.MolecularHeatmap.ApplyFilters | map.js:378-393 | `filteredData` becomes the cells the flags keep, in order, redrawn without highlight or outline |
| Heatmap.MolecularHeatmap.SetFilter | map.js:341-365 | once data has arrived, one of the five filter boxes sets its flag, refilters from all the cells and redraws them with no highlight or outline |
| Heatmap.MolecularHeatmap.SetShowValues | map.js:368-371 | once data has arrived, sets the show-values flag and redraws the same cells with no highlight or outline |
| Heatmap.MolecularHeatmap.SetShowEvidence | map.js:373-375 | once data has arrived, sets the show-evidence flag and nothing else |
| Heatmap.MolecularHeatmap.ResetFilters | map.js:395-411 | all seven flags on and every cell back in, whatever the state before (so a second reset changes nothing) |
| Heatmap.MolecularHeatmap.ResetView | map.js:323-326 | once data has arrived: after reset and redraw, the drawn cells are all cells, which is also what filtering with all flags on gives |
| Network.LabelOr | graph.js:44 | `value \|\| fallback`: the value when it is a non-empty string, otherwise the fallback |
| Network.DiseaseNode | graph.js:64-73 | disease node i: id `disease-i`, the disease as label, its confidence and tags; publications in [20, 69], trials in [1, 5], patents in [1, 3] |
| Network.ConfidenceStrength | graph.js:89-92 | strong iff confidence ≥ 0.8, moderate iff in [0.7, 0.8), weak iff < 0.7 |
| Network.ConfidenceStrengthMonotone | graph.js:89-92 | a higher confidence never gives a weaker class |
| Network.EdgePublications | graph.js:99 | `floor(confidence·40) + 10` lies in [10, 50] for a confidence in [0, 1] |
| Network.EdgePublicationsMonotone | graph.js:99 | edge publications never decrease with confidence |
| Network.NetIdDistinct | graph.js:43-65 | the ids `molecule`, `pathway` and `disease-i` are pairwise distinct by position |
| Network.NetworkShape | graph.js:41-101 | N + 2 nodes (molecule, pathway, disease i) and 1 + N edges (molecule → pathway, then pathway → disease i), position by position |
| Network.NetworkIdsDistinct | graph.js:41-74 | no two nodes share an id |
| Network.NetworkEndpointsResolve | graph.js:131 | every edge endpoint is a node id, so the link force resolves every edge |
| Network.EdgesOfDisease | graph.js:77-101 | the only edge touching disease i is the pathway → disease-i edge |
| Network.NeighbourhoodOfDisease | graph.js:271-280 | the one-hop neighbourhood of disease i is that disease and the pathway |
| Network.DiseaseClickHighlight | graph.js:259-281 | clicking disease i flags exactly that disease, the pathway and the edge between them |
| Network.LabelsClearCircles | graph.js:165-187 | each type's label is placed 10 pixels below the bottom of its circle |
| Network.TooltipRows | graph.js:218-229 | the publications, trials and patents lines appear exactly when the count is non-zero, tags exactly when present |
| Network.TooltipRowsOfNetwork | graph.js:218-229 | every node of the built network shows all three counts; exactly the disease nodes show tags |
| Network.ScaleBy | graph.js:117-118 | `scaleBy` keeps the scale in [0.1, 4] and is the plain product when that is inside |
| Network.ZoomInOutDrifts | graph.js:302-319 | zooming in then out lands at 0.91, not back at 1 |
| Network.ZoomSaturates | graph.js:118 | zooming in at 4 or out at 0.1 changes nothing |
| Network.NetworkVisualization.constructor | graph.js:3-12 | no data, no nodes or edges, scale 1, no tooltip |
| Network.NetworkVisualization.OnAnalysisData | graph.js:22-29 | the message rebuilds nodes and edges from the payload and its draws, redraws unzoomed with no highlight |
| Network.NetworkVisualization.CreateNetworkData | graph.js:39-102 | the push loops build exactly `NetworkNodes` and `NetworkEdges` |
| Network.NetworkVisualization.RenderGraph | graph.js:104-201 | a fresh drawing: initial unpinned positions, no highlight, identity zoom |
| Network.NetworkVisualization.HandleNodeClick | graph.js:259-281 | a non-disease click changes nothing; a disease click sets the highlight to exactly its one-hop neighbourhood |
| Network.NetworkVisualization.ShowTooltip | graph.js:231-232 | the tooltip is shown |
| Network.NetworkVisualization.HideTooltip | graph.js:255-257 | the tooltip is hidden |
| Network.NetworkVisualization.ResetZoom | graph.js:292-299 | once the graph is drawn, back to scale 1 |
| Network.NetworkVisualization.ZoomIn | graph.js:302-309 | once the graph is drawn, scale × 1.3 within the extent, strictly larger unless at the top |
| Network.NetworkVisualization.ZoomOut | graph.js:312-319 | once the graph is drawn, scale × 0.7 within the extent, strictly smaller unless at the bottom |
| Network.NetworkVisualization.DragStarted | graph.js:323-327 | pins the node where it is; alpha target 0.3 unless another drag is active |
| Network.NetworkVisualization.Dragged | graph.js:329-332 | moves only the dragged node's pin to the cursor |
| Network.NetworkVisualization.DragEnded | graph.js:334-338 | releases the pin; alpha target 0 unless another drag is active |
| Session.BaseOpportunities | script.js:65-84 | the mock always has exactly three opportunities |
| Session.Bump | script.js:89 | `min(0.95, c + 0.1)`: never above 0.95, c + 0.1 up to 0.85, never below c when c ≤ 0.95 |
| Session.Bumped | script.js:88-90 | every opportunity keeps its fields except the confidence, which is bumped |
| Session.MockOpportunitiesFacts | script.js:65-91 | RA, IBD, MS in that order with their descriptions and tags; each confidence is its base, plus 0.1 exactly when the target mentions `jak/stat` in any ASCII letter case (the Kelvin sign counting as `K`), never above 0.95 |
| Session.PhaseSplit | script.js:107-111 | the three phase counts are non-negative, at most t in total and at least t − 2 |
| Session.PhaseSplitCanUndercount | script.js:107-111 | 8 trials split as 2 + 4 + 1, losing one |
| Session.MockAnalysis | script.js:57-120 | molecule and target kept; papers in [150, 349], trials in [8, 22], phases their split, patents in [5, 14], [10, 29], [2, 6]; the mock opportunities |
| Session.GenerateMockAnalysis | script.js:57-120 | the in-place `forEach` bump yields exactly the mock analysis |
| Session.CapitalisedTargetBumps | script.js:87 | the target `JAK/STAT` triggers the bump: 0.95, 0.88, 0.82 |
| Session.KelvinSignTargetBumps | script.js:87 | a target spelling the K with the Kelvin sign U+212A triggers the bump, since `toLowerCase` maps that sign to `k` |
| Session.KindOf | script.js:563-569 | `success` and `error` have their own entries; every other type falls back to info |
| Session.UnknownKindFallsBackToInfo | script.js:488-493 | an unknown type gets the info icon and colour; the three known types differ in both |
| Session.RepurposeQuestAI.constructor | script.js:3-6 | no current analysis |
| Session.RepurposeQuestAI.PerformAnalysis | script.js:33-55 | an empty trimmed input only adds the error notification; otherwise the mock analysis of the trimmed inputs becomes current |
| Session.RepurposeQuestAI.ExportReport | script.js:173-182 | without an analysis only an error notification; with one, its report is exported and a success notification follows, "PDF report exported successfully" when the PDF library succeeds (script.js:421) and "Report exported successfully" from the text fallback otherwise (script.js:440) |
| Session.RepurposeQuestAI.OpenView | script.js:509-561 | without an analysis each view button only notifies with its own message; with one, the view opens |
| Session.RepurposeQuestAI.ResetAnalysis | script.js:443-453 | the current analysis is gone and "Ready for new analysis" is shown |
| Scenarios.StrengthTiersOnMock | ai.js:164-171 | on the mock opportunities the evidence-flow and network views class the three disease edges differently, with or without the bump |
| Scenarios.MockHeatmapKeyed | map.js:55-73 | the mock analysis gives 21 cells, one per (component, disease) pair |
| Scenarios.MockDiseasesOutsideFactorTable | map.js:80-86 | IBD and MS are not in the factor table: base 0.5, score in [0.4, 0.6), and only the type filters can hide them |

## Findings

| source | as written | input that shows it | evidently intended | confidence | as-written member | corrected member |
|---|---|---|---|---|---|---|
| ai.js:357-361 | the edge tooltip looks its endpoints up with `n.id === edgeData.source` (and `.target`); the link force created at ai.js:210 has already replaced both with node objects, so `find` returns `undefined` and reading `.label` throws | hovering any edge, e.g. the literature-mechanistic → pathway edge, after the graph is drawn | compare with the endpoint's id (`edgeData.source.id`), as `showNodeTooltip` does at ai.js:309-313, and show the two labels the edge joins | high (not executed) | EvidenceFlow.EdgeTooltipFailsOnBuiltModel | EvidenceFlow.EdgeTooltipOfEvidenceEdge |

`EvidenceFlow.EdgeTooltipOfOutcomeEdge` states the corrected tooltip for the
pathway → outcome edges.

## Left out

- The d3 force simulation, zoom behaviour and SVG drawing are a foreign library. Only the parameters the code passes are modelled: link distance, charge, lanes, collision radius, radii, label offsets and the zoom extent. Node positions are inputs, and a zoom button is modelled by the scale its transition ends at.
- Timers and animation frames (`setInterval`, `requestAnimationFrame`, the 2-second mock delay, the 3-second notification removal) are real-time scheduling. The animator is an explicit on/off state with a list of in-flight particles, and each tick or frame is an explicit method call with the current time as a parameter.
- `Math.random()` and `Date.now()` are parameters constrained to their ranges.
- Cross-window messaging (`postMessage`, `window.opener`, the message listeners, which `openGraph`/`openXAI`/`openHeatmap` add anew on every click), `window.open`, `window.close` and navigation are I/O. `OpenView` records the opened view instead.
- Report export (`generateReportText`, `downloadPDFReport` with jsPDF, `downloadReport`) formats dates and numbers and calls a foreign library. `ExportReport` records the analysis handed to the export and takes whether the PDF library succeeded as a parameter.
- DOM work is UI and is left out. That covers:
  - `displayResults`;
  - the loading overlay;
  - notification elements and CSS animations;
  - hover effects and smooth scrolling;
  - the checkbox reset in `resetFilters`.

  Notifications are kept as a list of (message, type) pairs.
- The try/catch in `performAnalysis` is left out: the modelled mock generation cannot fail.
- The timestamp and the fixed literature highlights of the mock analysis are constants that nothing decides on.
- The HTML content of the tooltips is left out, except the parts the code decides on: the network tooltip's optional lines, the outcome tooltip's confidence bucket and key drivers, the heatmap's direction label, and the edge tooltip's lookup. The heatmap tooltip's evidence block (map.js:232-238) is not modelled: every generated cell carries an evidence object, so the block shows exactly when the show-evidence flag is on.
- The heatmap's axis labels and `showValues` text are drawing only.
- The resize handler at graph.js:347-350 builds a whole new view, a UI side effect.
- server.js is not part of this model.
- A payload without an `opportunities` list: every view's builder throws a `TypeError` and the view stays on its loading overlay. The model's `Payload` always holds a list, so this failure is not represented.
- Controls used before the first analysis arrives are not modelled. The evidence-flow and heatmap controls are wired only by the first message (ai.js:33, map.js:37). The network's zoom and reset buttons are wired at once (graph.js:32) but throw while the drawing does not exist. The corresponding methods require data to have arrived.
- The evidence-flow view's reset button (ai.js:433-440) only animates the d3 zoom back to the identity; this view keeps no zoom state in the model.
- EvidenceFlow.DisplayLabel: counts characters, while JavaScript's `length` and `substring` count UTF-16 code units. A label with characters beyond U+FFFF, such as an emoji, would be cut at a different place.
- Text.ToLower: maps only the ASCII letters A–Z and the Kelvin sign U+212A (to `k`), not the rest of Unicode's case mapping. For the `jak/stat` test (script.js:87) this is exact: no other character lower-cases to one of the pattern's letters, so `Session.MentionsJakStat` agrees with the source on every target, including "JA\u212A/STAT". `Heatmap.DiseaseKey` (map.js:70) inherits the restriction: the source's `toLowerCase` maps U+0130 'İ' to two UTF-16 code units, so its key can be longer than the name, which `Heatmap.DiseaseKeyShape` rules out for the model; that key is stored on each cell but never read in map.js.
- The lookup tables (`diseaseFactors`, `evidenceStates`, the icon and colour tables) are modelled as maps over their own keys. JavaScript would also find inherited object properties such as `constructor`, which no input here uses as a key.
- Heatmap.MolecularHeatmap.Valid states only the number of cells in `heatmapData`, not the cells themselves. `OnAnalysisData` states the exact cells, and no other method may modify `heatmapData`.
- Evidence summaries are illustrative random values. `Summarize` states their bounds and shape, not their values.
