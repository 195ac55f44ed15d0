/** Section-level analysis of one farm (ml/section_optimizer.py): the farm
    is cut into a grid of sections, each section's recoverable loss is scaled
    by its dust and shading factors and turned into a cleaning ROI, and the
    sections are cleaned greedily by ROI under a water budget. */
module SectionOptimizer {
  import opened Util
  import opened Weather
  import Degradation
  import opened Greedy

  /** m^2 of panels per MW of capacity. */
  const SquareMetresPerMw: real := 5000.0
  const EdgePenalty: real := 0.05
  const MinShading: real := 0.7
  const MinDustMultiplier: real := 0.8
  const MaxDustMultiplier: real := 1.5

  /** One section of the farm grid. Its position and physical factors are
      fixed at construction; the analysis results are written later. */
  class FarmSection {
    const id: string
    const row: int
    const col: int
    const panelArea: real
    const orientation: real
    const shading: real
    const dustMultiplier: real

    var energyLossKwh: real
    var energyLossPercent: real
    var cleaningCost: real
    var cleaningPriority: real
    var roiScore: real

    constructor(id: string, row: int, col: int, panelArea: real, orientation: real, shading: real, dustMultiplier: real)
      ensures this.id == id && this.row == row && this.col == col && this.panelArea == panelArea
      ensures this.orientation == orientation && this.shading == shading && this.dustMultiplier == dustMultiplier
      ensures energyLossKwh == 0.0 && energyLossPercent == 0.0 && cleaningCost == 0.0
      ensures cleaningPriority == 0.0 && roiScore == 0.0
    {
      this.id := id;
      this.row := row;
      this.col := col;
      this.panelArea := panelArea;
      this.orientation := orientation;
      this.shading := shading;
      this.dustMultiplier := dustMultiplier;
      energyLossKwh := 0.0;
      energyLossPercent := 0.0;
      cleaningCost := 0.0;
      cleaningPriority := 0.0;
      roiScore := 0.0;
    }
  }

  // ---------------------------------------------------------------------
  // generate_farm_grid

  /** The three uniform draws made for one section: the shading draw in
      [0, 0.03], the dust draw in [-0.1, 0.1] and the orientation draw in
      [-5, 5]. */
  datatype GridDraw = GridDraw(shadingDraw: real, dustDraw: real, orientationDraw: real)

  /** f"S{row}{col}" */
  function SectionId(row: nat, col: nat): string
  {
    "S" + NatToString(row) + NatToString(col)
  }

  predicate IsEdge(row: int, col: int, rows: int, cols: int)
  {
    row == 0 || row == rows - 1 || col == 0 || col == cols - 1
  }

  /** max(0.7, 1 - edge penalty - draw) */
  function SectionShading(row: int, col: int, rows: int, cols: int, draw: real): (r: real)
    ensures r >= MinShading
    ensures IsEdge(row, col, rows, cols) && draw >= 0.0 ==> r <= 1.0 - EdgePenalty || r == MinShading
  {
    Max(MinShading, 1.0 - (if IsEdge(row, col, rows, cols) then EdgePenalty else 0.0) - draw)
  }

  /** clip(1 + draw - (col / cols) * 0.3 * 0.5, 0.8, 1.5): eastern columns
      gather less dust. */
  function SectionDustMultiplier(col: int, cols: int, draw: real): (r: real)
    requires cols != 0
    ensures MinDustMultiplier <= r <= MaxDustMultiplier
  {
    Clip(1.0 + draw - (col as real / cols as real) * 0.3 * 0.5, MinDustMultiplier, MaxDustMultiplier)
  }

  /** Section k of the grid, in row-major order, is the one generate_farm_grid
      builds at (row, col) from draw d. */
  predicate IsGridSection(s: FarmSection, totalArea: real, rows: int, cols: int, row: int, col: int, d: GridDraw)
    requires rows * cols != 0 && cols != 0
    reads s
  {
    row >= 0 && col >= 0 && s.id == SectionId(row, col) && s.row == row && s.col == col &&
    s.panelArea == totalArea / (rows * cols) as real &&
    s.orientation == 180.0 + d.orientationDraw &&
    s.shading == SectionShading(row, col, rows, cols, d.shadingDraw) &&
    s.dustMultiplier == SectionDustMultiplier(col, cols, d.dustDraw) &&
    s.energyLossKwh == 0.0 && s.energyLossPercent == 0.0 && s.cleaningCost == 0.0 &&
    s.cleaningPriority == 0.0 && s.roiScore == 0.0
  }

  /** The sum of the section areas. */
  function TotalArea(sections: seq<FarmSection>): real
  {
    if |sections| == 0 then 0.0 else TotalArea(sections[..|sections| - 1]) + sections[|sections| - 1].panelArea
  }

  lemma {:induction false} MulLe(a: nat, b: nat, c: nat)
    requires a <= b
    ensures a * c <= b * c
    decreases b - a
  {
    if a < b {
      MulLe(a, b - 1, c);
      assert (b - 1) * c + c == b * c;
    }
  }

  /** Position k = row * cols + col of a row-major grid lies in row k / cols
      and column k % cols. */
  lemma RowMajorIndex(row: nat, col: nat, cols: nat)
    requires col < cols
    ensures (row * cols + col) / cols == row && (row * cols + col) % cols == col
  {
    var k := row * cols + col;
    var q := k / cols;
    var m := k % cols;
    assert k == q * cols + m;
    if q < row {
      MulLe(q + 1, row, cols);
    } else if q > row {
      MulLe(row + 1, q, cols);
    }
  }

  lemma {:induction false} TotalAreaOfEqualSections(sections: seq<FarmSection>, area: real)
    requires forall k :: 0 <= k < |sections| ==> sections[k].panelArea == area
    ensures TotalArea(sections) == |sections| as real * area
  {
    if |sections| > 0 {
      TotalAreaOfEqualSections(sections[..|sections| - 1], area);
    }
  }

  /** n equal shares of a total add up to the total. */
  lemma GridAreaSum(sections: seq<FarmSection>, n: int, total: real)
    requires n > 0 && |sections| == n
    requires forall k :: 0 <= k < |sections| ==> sections[k].panelArea == total / n as real
    ensures TotalArea(sections) == total
  {
    TotalAreaOfEqualSections(sections, total / n as real);
  }

  /** The inner loop of generate_farm_grid: the sections of one grid row,
      left to right, each from its own draw. */
  method GenerateGridRow(row: nat, rows: int, cols: int, totalArea: real, rowDraws: seq<GridDraw>)
    returns (rowSections: seq<FarmSection>)
    requires rows * cols != 0 && cols > 0 && |rowDraws| == cols
    ensures |rowSections| == cols
    ensures forall c :: 0 <= c < cols ==> fresh(rowSections[c]) && rowSections[c].panelArea == totalArea / (rows * cols) as real
    ensures forall c :: 0 <= c < cols ==> IsGridSection(rowSections[c], totalArea, rows, cols, row, c, rowDraws[c])
  {
    var sectionArea := totalArea / (rows * cols) as real;
    rowSections := [];
    var col := 0;
    while col < cols
      invariant 0 <= col <= cols && |rowSections| == col
      invariant forall c :: 0 <= c < col ==> fresh(rowSections[c]) && rowSections[c].panelArea == sectionArea
      invariant forall c :: 0 <= c < col ==> IsGridSection(rowSections[c], totalArea, rows, cols, row, c, rowDraws[c])
    {
      var d := rowDraws[col];
      var edgePenalty := if IsEdge(row, col, rows, cols) then EdgePenalty else 0.0;
      var shading := 1.0 - edgePenalty - d.shadingDraw;
      var dustVariation := (col as real / cols as real) * 0.3;
      var dustMultiplier := 1.0 + d.dustDraw - dustVariation * 0.5;
      var orientation := 180.0 + d.orientationDraw;
      var section := new FarmSection(SectionId(row, col), row, col, sectionArea, orientation,
                                     Max(MinShading, shading), Clip(dustMultiplier, MinDustMultiplier, MaxDustMultiplier));
      rowSections := rowSections + [section];
      col := col + 1;
    }
  }

  /** Appending the sections of row `row` to the sections of the rows
      before it keeps every section at its row-major position. */
  lemma RowAppended(sections: seq<FarmSection>, rowSections: seq<FarmSection>, totalArea: real, rows: int, cols: int,
                    row: nat, draws: seq<GridDraw>)
    requires rows > 0 && cols > 0 && row < rows && (row + 1) * cols <= |draws|
    requires |sections| == row * cols && |rowSections| == cols
    requires forall k :: 0 <= k < |sections| ==>
               IsGridSection(sections[k], totalArea, rows, cols, k / cols, k % cols, draws[k])
    requires forall c :: 0 <= c < cols ==> IsGridSection(rowSections[c], totalArea, rows, cols, row, c, draws[row * cols + c])
    ensures forall k :: 0 <= k < |sections + rowSections| ==>
              IsGridSection((sections + rowSections)[k], totalArea, rows, cols, k / cols, k % cols, draws[k])
  {
    var all := sections + rowSections;
    forall k | 0 <= k < |all|
      ensures IsGridSection(all[k], totalArea, rows, cols, k / cols, k % cols, draws[k])
    {
      if k >= |sections| {
        var c := k - |sections|;
        RowMajorIndex(row, c, cols);
        assert all[k] == rowSections[c];
      }
    }
  }

  /** generate_farm_grid with its random draws taken as a parameter, one per
      section in creation order. A grid with no cells divides by zero. */
  method GenerateFarmGrid(farmSizeMw: real, rows: int, cols: int, draws: seq<GridDraw>)
    returns (r: Result<seq<FarmSection>>)
    requires |draws| == if rows > 0 && cols > 0 then rows * cols else 0
    ensures r.Failure? <==> rows * cols == 0
    ensures r.Failure? ==> r.error == ZeroDivisionError
    ensures r.Ok? ==> |r.value| == |draws|
    ensures r.Ok? ==> forall k :: 0 <= k < |r.value| ==> fresh(r.value[k])
    ensures r.Ok? && |draws| > 0 ==> forall k :: 0 <= k < |r.value| ==>
              IsGridSection(r.value[k], farmSizeMw * SquareMetresPerMw, rows, cols, k / cols, k % cols, draws[k])
    ensures r.Ok? && |draws| > 0 ==> TotalArea(r.value) == farmSizeMw * SquareMetresPerMw
  {
    var totalArea := farmSizeMw * SquareMetresPerMw;
    if rows * cols == 0 {
      return Failure(ZeroDivisionError);
    }
    if rows <= 0 || cols <= 0 {
      return Ok([]);
    }
    var sections := GenerateRows(totalArea, rows, cols, draws);
    GridAreaSum(sections, rows * cols, totalArea);
    return Ok(sections);
  }

  /** The nested loops of generate_farm_grid on a grid with at least one row
      and one column: the sections in row-major order. */
  method GenerateRows(totalArea: real, rows: int, cols: int, draws: seq<GridDraw>)
    returns (sections: seq<FarmSection>)
    requires rows > 0 && cols > 0 && |draws| == rows * cols
    ensures |sections| == rows * cols
    ensures forall k :: 0 <= k < |sections| ==> fresh(sections[k])
    ensures forall k :: 0 <= k < |sections| ==>
              IsGridSection(sections[k], totalArea, rows, cols, k / cols, k % cols, draws[k])
  {
    sections := [];
    var row := 0;
    while row < rows
      invariant 0 <= row <= rows
      invariant |sections| == row * cols
      invariant forall k :: 0 <= k < |sections| ==> fresh(sections[k])
      invariant forall k :: 0 <= k < |sections| ==>
                  IsGridSection(sections[k], totalArea, rows, cols, k / cols, k % cols, draws[k])
    {
      MulLe(row + 1, rows, cols);
      var start := row * cols;
      assert start + cols == (row + 1) * cols;
      var rowDraws := draws[start..start + cols];
      var rowSections := GenerateGridRow(row, rows, cols, totalArea, rowDraws);
      forall c | 0 <= c < cols
        ensures IsGridSection(rowSections[c], totalArea, rows, cols, row, c, draws[start + c])
      {
        assert rowDraws[c] == draws[start + c];
      }
      RowAppended(sections, rowSections, totalArea, rows, cols, row, draws);
      sections := sections + rowSections;
      row := row + 1;
    }
  }

  /** Ids are unique on grids of at most ten rows and columns. */
  lemma SectionIdsUniqueOnSmallGrids(r1: nat, c1: nat, r2: nat, c2: nat)
    requires r1 < 10 && c1 < 10 && r2 < 10 && c2 < 10
    requires SectionId(r1, c1) == SectionId(r2, c2)
    ensures r1 == r2 && c1 == c2
  {
    assert SectionId(r1, c1)[1] == SectionId(r2, c2)[1];
    assert SectionId(r1, c1)[2] == SectionId(r2, c2)[2];
  }

  /** From eleven columns on, ids collide: (1, 11) and (11, 1) are both "S111". */
  lemma SectionIdsCollideOnWideGrids()
    ensures SectionId(1, 11) == SectionId(11, 1) == "S111"
  {
    assert NatToString(1) == "1";
    assert NatToString(11) == NatToString(1) + "1";
  }

  // ---------------------------------------------------------------------
  // calculate_section_energy_loss

  /** Rs 25 per 1000 m^2. */
  function SectionCleaningCost(area: real): (c: real)
    ensures area >= 0.0 ==> c >= 0.0
    ensures c * 40.0 == area
  {
    (area / 1000.0) * 25.0
  }

  /** The energy value of the loss per rupee of cleaning, 0 when cleaning is
      free. */
  function SectionRoi(lossKwh: real, cost: real, price: real): (r: real)
    ensures cost <= 0.0 ==> r == 0.0
  {
    if cost > 0.0 then (lossKwh * price) / cost else 0.0
  }

  /** With a positive cost, the ROI times the cost is the value of the loss. */
  lemma RoiIsValuePerCost(lossKwh: real, cost: real, price: real)
    requires cost > 0.0
    ensures SectionRoi(lossKwh, cost, price) * cost == lossKwh * price
  {
  }

  /** On sections of equal area at a positive price, the ROI orders the
      sections exactly as their losses. */
  lemma RoiOrdersByLoss(loss1: real, loss2: real, area: real, price: real)
    requires area > 0.0 && price > 0.0
    ensures SectionRoi(loss1, SectionCleaningCost(area), price) <= SectionRoi(loss2, SectionCleaningCost(area), price)
        <==> loss1 <= loss2
  {
    var c := SectionCleaningCost(area);
    assert c > 0.0;
    var r1 := SectionRoi(loss1, c, price);
    var r2 := SectionRoi(loss2, c, price);
    RoiIsValuePerCost(loss1, c, price);
    RoiIsValuePerCost(loss2, c, price);
    assert (r2 - r1) * c == (loss2 - loss1) * price;
    if r1 <= r2 {
      ScaleBetween(c, r2 - r1, 0.0, r2 - r1);
      if loss2 < loss1 {
        ScaleBetween(price, loss1 - loss2, 0.0, loss1 - loss2);
      }
    } else {
      assert (r1 - r2) * c > 0.0;
      ScaleBetween(price, loss2 - loss1, 0.0, loss2 - loss1);
    }
  }

  /** The loss of a section: the farm-wide recoverable energy scaled by the
      section's dust and shading factors. */
  function SectionLoss(s: FarmSection, baseRecoverable: real): real
  {
    baseRecoverable * s.dustMultiplier * s.shading
  }

  /** calculate_section_energy_loss as written, given the frame that
      calculate_energy_metrics returns for the section's panel area: after
      storing the loss it reads a potential_energy_kwh column that
      calculate_energy_metrics never writes, so it always ends in a KeyError
      with the percentage, cost and ROI untouched. */
  method CalculateSectionEnergyLossAsWritten(s: FarmSection, processed: seq<Degradation.RowMetrics>) returns (r: Result<()>)
    modifies s
    ensures r == Failure(KeyError)
    ensures s.energyLossKwh == SectionLoss(s, Degradation.TotalRecoverable(processed))
    ensures s.energyLossPercent == old(s.energyLossPercent) && s.cleaningCost == old(s.cleaningCost)
    ensures s.roiScore == old(s.roiScore) && s.cleaningPriority == old(s.cleaningPriority)
  {
    var baseRecoverable := Degradation.TotalRecoverable(processed);
    s.energyLossKwh := baseRecoverable * s.dustMultiplier * s.shading;
    return Failure(KeyError);
  }

  /** The loss as a percentage of the potential energy. */
  function LossPercent(lossKwh: real, potentialEnergy: real): real
    requires potentialEnergy > 0.0
  {
    (lossKwh / potentialEnergy) * 100.0
  }

  /** The percentage scales back to the loss: p% of the potential is the loss. */
  lemma LossPercentOfPotential(lossKwh: real, potentialEnergy: real)
    requires potentialEnergy > 0.0
    ensures LossPercent(lossKwh, potentialEnergy) * potentialEnergy == lossKwh * 100.0
  {
  }

  /** calculate_section_energy_loss with the potential energy supplied by the
      caller, given the frame calculate_energy_metrics returns for the
      section's panel area. The percentage is only written when the potential
      is positive; otherwise it keeps its previous value. */
  method CalculateSectionEnergyLoss(s: FarmSection, processed: seq<Degradation.RowMetrics>, potentialEnergy: real, price: real)
    modifies s
    ensures s.energyLossKwh == SectionLoss(s, Degradation.TotalRecoverable(processed))
    ensures potentialEnergy > 0.0 ==> s.energyLossPercent == LossPercent(s.energyLossKwh, potentialEnergy)
    ensures potentialEnergy <= 0.0 ==> s.energyLossPercent == old(s.energyLossPercent)
    ensures s.cleaningCost == SectionCleaningCost(s.panelArea)
    ensures s.roiScore == SectionRoi(s.energyLossKwh, s.cleaningCost, price)
    ensures s.cleaningPriority == s.roiScore
  {
    var baseRecoverable := Degradation.TotalRecoverable(processed);
    s.energyLossKwh := baseRecoverable * s.dustMultiplier * s.shading;
    if potentialEnergy > 0.0 {
      s.energyLossPercent := (s.energyLossKwh / potentialEnergy) * 100.0;
    }
    s.cleaningCost := (s.panelArea / 1000.0) * 25.0;
    var energyValue := s.energyLossKwh * price;
    if s.cleaningCost > 0.0 {
      s.roiScore := energyValue / s.cleaningCost;
    } else {
      s.roiScore := 0.0;
    }
    s.cleaningPriority := s.roiScore;
  }

  // ---------------------------------------------------------------------
  // optimize_section_cleaning

  /** 500 L of water per 100 m^2. */
  function WaterNeed(area: real): (w: real)
    ensures w == area * 5.0
  {
    (area / 100.0) * 500.0
  }

  function Priorities(sections: seq<FarmSection>): (ps: seq<real>)
    reads set s | s in sections
    ensures |ps| == |sections| && forall k :: 0 <= k < |sections| ==> ps[k] == sections[k].cleaningPriority
  {
    seq(|sections|, k reads set s | s in sections requires 0 <= k < |sections| => sections[k].cleaningPriority)
  }

  /** The water needs of the sections in the order they are visited. */
  function VisitNeeds(sections: seq<FarmSection>, order: seq<nat>): (ns: seq<real>)
    requires forall k :: 0 <= k < |order| ==> order[k] < |sections|
    ensures |ns| == |order| && forall k :: 0 <= k < |order| ==> ns[k] == WaterNeed(sections[order[k]].panelArea)
  {
    seq(|order|, k requires 0 <= k < |order| => WaterNeed(sections[order[k]].panelArea))
  }

  /** The sections at the given visiting positions. */
  function Pick(sections: seq<FarmSection>, order: seq<nat>, positions: seq<nat>): (r: seq<FarmSection>)
    requires forall k :: 0 <= k < |order| ==> order[k] < |sections|
    requires forall k :: 0 <= k < |positions| ==> positions[k] < |order|
    ensures |r| == |positions| && forall k :: 0 <= k < |positions| ==> r[k] == sections[order[positions[k]]]
  {
    seq(|positions|, k requires 0 <= k < |positions| => sections[order[positions[k]]])
  }

  /** The order in which optimize_section_cleaning visits the sections. */
  function VisitOrder(sections: seq<FarmSection>): (order: seq<nat>)
    reads set s | s in sections
    ensures |order| == |sections| && forall k :: 0 <= k < |order| ==> order[k] < |sections|
  {
    SortOrder(Priorities(sections))
  }

  /** The sections optimize_section_cleaning selects, in visiting order. */
  function SelectedSections(sections: seq<FarmSection>, budget: real): seq<FarmSection>
    reads set s | s in sections
  {
    var order := VisitOrder(sections);
    var needs := VisitNeeds(sections, order);
    Pick(sections, order, Selection(needs, budget, |needs|))
  }

  /** The water optimize_section_cleaning reports. */
  function SectionWaterUsed(sections: seq<FarmSection>, budget: real): real
    reads set s | s in sections
  {
    var needs := VisitNeeds(sections, VisitOrder(sections));
    UsedAfter(needs, budget, |needs|)
  }

  /** The section selection never overspends a non-negative budget. */
  lemma SectionWaterWithinBudget(sections: seq<FarmSection>, budget: real)
    requires budget >= 0.0
    ensures SectionWaterUsed(sections, budget) <= budget
  {
    var needs := VisitNeeds(sections, VisitOrder(sections));
    UsedWithinBudget(needs, budget, |needs|);
  }

  /** The water reported is exactly the needs of the selected sections. */
  lemma SectionWaterIsSelectedNeeds(sections: seq<FarmSection>, budget: real)
    ensures var order := VisitOrder(sections);
            SectionWaterUsed(sections, budget) == SumAt(VisitNeeds(sections, order), Selection(VisitNeeds(sections, order), budget, |sections|))
  {
    var needs := VisitNeeds(sections, VisitOrder(sections));
    UsedIsSumOfSelected(needs, budget, |needs|);
  }

  /** The selected sections come by descending priority. */
  lemma SelectedByPriority(sections: seq<FarmSection>, budget: real)
    ensures var selected := SelectedSections(sections, budget);
            forall a, b :: 0 <= a < b < |selected| ==> selected[a].cleaningPriority >= selected[b].cleaningPriority
  {
    var keys := Priorities(sections);
    var order := VisitOrder(sections);
    var needs := VisitNeeds(sections, order);
    var positions := Selection(needs, budget, |needs|);
    var selected := SelectedSections(sections, budget);
    assert selected == Pick(sections, order, positions);
    SortOrderCorrect(keys);
    SelectionIsTaken(needs, budget, |needs|);
    forall a, b | 0 <= a < b < |selected|
      ensures selected[a].cleaningPriority >= selected[b].cleaningPriority
    {
      assert positions[a] < positions[b];
      assert keys[order[positions[a]]] >= keys[order[positions[b]]];
    }
  }

  /** Only given sections are selected. */
  lemma SelectedAreGiven(sections: seq<FarmSection>, budget: real)
    ensures forall x :: x in SelectedSections(sections, budget) ==> x in sections
  {
    var selected := SelectedSections(sections, budget);
    forall x | x in selected
      ensures x in sections
    {
      var k :| 0 <= k < |selected| && selected[k] == x;
    }
  }

  /** One visit of optimize_section_cleaning: the water and the selection
      grow by the k-th visited section exactly when its need still fits. */
  lemma SectionVisitStep(sections: seq<FarmSection>, order: seq<nat>, needs: seq<real>, budget: real, k: nat)
    requires forall j :: 0 <= j < |order| ==> order[j] < |sections|
    requires needs == VisitNeeds(sections, order) && k < |order|
    ensures var used := UsedAfter(needs, budget, k);
            var fits := used + WaterNeed(sections[order[k]].panelArea) <= budget;
            UsedAfter(needs, budget, k + 1) == (if fits then used + WaterNeed(sections[order[k]].panelArea) else used) &&
            Pick(sections, order, Selection(needs, budget, k + 1)) ==
              Pick(sections, order, Selection(needs, budget, k)) + (if fits then [sections[order[k]]] else [])
  {
    var before := Selection(needs, budget, k);
    var after := Selection(needs, budget, k + 1);
    var p := Pick(sections, order, before);
    var q := Pick(sections, order, after);
    assert after == before + (if Taken(needs, budget, k) then [k] else []);
    assert |q| == |p| + (if Taken(needs, budget, k) then 1 else 0);
    forall j | 0 <= j < |p|
      ensures q[j] == p[j]
    {
      assert after[j] == before[j];
    }
  }

  /** The greedy scan of optimize_section_cleaning over a fixed visiting
      order: take each section whose water need still fits the budget. */
  method ScanSections(sections: seq<FarmSection>, order: seq<nat>, needs: seq<real>, budget: real)
    returns (selected: seq<FarmSection>, waterUsed: real)
    requires forall j :: 0 <= j < |order| ==> order[j] < |sections|
    requires needs == VisitNeeds(sections, order)
    ensures waterUsed == UsedAfter(needs, budget, |order|)
    ensures selected == Pick(sections, order, Selection(needs, budget, |order|))
  {
    selected := [];
    waterUsed := 0.0;
    var k := 0;
    while k < |order|
      invariant 0 <= k <= |order|
      invariant waterUsed == UsedAfter(needs, budget, k)
      invariant selected == Pick(sections, order, Selection(needs, budget, k))
    {
      var section := sections[order[k]];
      var sectionWaterNeed := WaterNeed(section.panelArea);
      SectionVisitStep(sections, order, needs, budget, k);
      if waterUsed + sectionWaterNeed <= budget {
        selected := selected + [section];
        waterUsed := waterUsed + sectionWaterNeed;
      }
      k := k + 1;
    }
  }

  /** optimize_section_cleaning: visit the sections by descending priority
      (stable) and take each one whose water need still fits the budget. */
  method OptimizeSectionCleaning(sections: seq<FarmSection>, budget: real)
    returns (selected: seq<FarmSection>, waterUsed: real)
    ensures selected == SelectedSections(sections, budget)
    ensures waterUsed == SectionWaterUsed(sections, budget)
    ensures budget >= 0.0 ==> waterUsed <= budget
    ensures forall a, b :: 0 <= a < b < |selected| ==> selected[a].cleaningPriority >= selected[b].cleaningPriority
  {
    var order := VisitOrder(sections);
    var needs := VisitNeeds(sections, order);
    selected, waterUsed := ScanSections(sections, order, needs, budget);
    if budget >= 0.0 {
      SectionWaterWithinBudget(sections, budget);
    }
    SelectedByPriority(sections, budget);
  }
}
