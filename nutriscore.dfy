/** Score aggregation: `calculate_component_scores` and
    `calculate_nutri_score` (nutriscore_app.py:136-195).
 */
module NutriScore {
  import opened Tables
  import opened Scoring
  import opened Grading

  /** One product, nutrient values per 100 g or 100 mL.  The three flags are
      the columns the source reads with a default of False
      ("Contains sweeteners", "Is red meat", "Is Water"). */
  datatype Row = Row(
    energy: real,
    sugar: real,
    saturates: real,
    salt: real,
    fruitVegPulses: real,
    fibre: real,
    protein: real,
    containsSweeteners: bool,
    isRedMeat: bool,
    isWater: bool)

  /** The eight entries of the `scores` dictionary. */
  datatype ComponentScores = ComponentScores(
    energy: int,
    sugar: int,
    saturates: int,
    salt: int,
    sweetenerPenalty: int,
    fruit: int,
    fibre: int,
    protein: int)
  {
    /** N-points: the unfavourable components (nutriscore_app.py:167-169). */
    function NPoints(): int {
      energy + sugar + saturates + salt + sweetenerPenalty
    }

    /** P-points: the favourable components (nutriscore_app.py:171). */
    function PPoints(): int {
      fruit + fibre + protein
    }
  }

  /** `calculate_component_scores`: each component from its category table,
      the flat sweetener penalty for sweetened drinks, and the red-meat cap
      on protein. */
  function CalculateComponentScores(row: Row, c: Category): (s: ComponentScores)
    ensures 0 <= s.energy <= 10 && 0 <= s.saturates <= 10 && 0 <= s.salt <= 20 && 0 <= s.fibre <= 5
    ensures 0 <= s.sugar <= (if c == Drink then 10 else 15)
    ensures 0 <= s.fruit <= (if c == Drink then 6 else 5)
    ensures 0 <= s.protein <= (if c == Drink then 7 else if c == General && row.isRedMeat then 2 else 8)
    ensures s.sweetenerPenalty == 4 <==> c == Drink && row.containsSweeteners
    ensures s.sweetenerPenalty == 0 <==> !(c == Drink && row.containsSweeteners)
    ensures 0 <= s.NPoints() <= (if c == Drink then 54 else 55)
    ensures 0 <= s.PPoints() <= 18
  {
    ComponentScores(
      energy := EnergyPoints(row.energy, c),
      sugar := SugarPoints(row.sugar, c),
      saturates := SaturatesPoints(row.saturates, c),
      salt := SaltPoints(row.salt, c),
      sweetenerPenalty := if c == Drink && row.containsSweeteners then 4 else 0,
      fruit := FruitPoints(row.fruitVegPulses, c),
      fibre := FibrePoints(row.fibre, c),
      protein := ProteinPoints(row.protein, c, row.isRedMeat))
  }

  /** The category-dependent subtraction (nutriscore_app.py:174-188): drinks
      always subtract all P-points; fats from 7 N-points on, and general food
      from 11 N-points on, subtract only fruit and fibre. */
  function FinalScore(s: ComponentScores, c: Category): int {
    if c == Drink then
      s.NPoints() - s.PPoints()
    else if c == Fat then
      if s.NPoints() >= 7 then s.NPoints() - (s.fruit + s.fibre) else s.NPoints() - s.PPoints()
    else
      if s.NPoints() >= 11 then s.NPoints() - (s.fruit + s.fibre) else s.NPoints() - s.PPoints()
  }

  /** Whether the protein points are left out of the subtraction. */
  predicate ProteinExcluded(s: ComponentScores, c: Category) {
    (c == Fat && s.NPoints() >= 7) || (c == General && s.NPoints() >= 11)
  }

  /** `calculate_nutri_score`: water in the drink category is (0, A)
      outright; otherwise the final score and the grade of its band. */
  function CalculateNutriScore(row: Row, c: Category): (r: (int, Grade))
    ensures c == Drink && row.isWater ==> r == (0, A)
    ensures !(c == Drink && row.isWater) ==> -18 <= r.0 <= 55
    ensures !(c == Drink && row.isWater) ==> r.1 == GradeFor(r.0, c)
  {
    if c == Drink && row.isWater then
      (0, A)
    else
      var s := CalculateComponentScores(row, c);
      var score := FinalScore(s, c);
      (score, GradeFor(score, c))
  }

  /** The subtraction rule as nutriscore_app.py:175, 178 and 184 state it
      (drinks subtract all P-points; fats from N >= 7 and general food from
      N >= 11 subtract only fruit and fibre), and its consequence
      `N - P <= final <= N`. */
  lemma SubtractionRule(row: Row, c: Category)
    ensures var s := CalculateComponentScores(row, c);
      && (ProteinExcluded(s, c) ==> FinalScore(s, c) == s.NPoints() - (s.fruit + s.fibre))
      && (!ProteinExcluded(s, c) ==> FinalScore(s, c) == s.NPoints() - s.PPoints())
      && s.NPoints() - s.PPoints() <= FinalScore(s, c) <= s.NPoints()
  {
  }

  /** The sweetener flag adds exactly 4 to the N-points of a drink, nothing
      elsewhere, and never touches the P-points. */
  lemma SweetenerCountsInNOnly(row: Row, c: Category)
    ensures var without := CalculateComponentScores(row.(containsSweeteners := false), c);
      var with := CalculateComponentScores(row.(containsSweeteners := true), c);
      && with.PPoints() == without.PPoints()
      && with.NPoints() == without.NPoints() + (if c == Drink then 4 else 0)
  {
  }

  /** Outside the drink category the water flag changes nothing. */
  lemma WaterFlagIgnoredOutsideDrinks(row: Row, c: Category, isWater: bool)
    requires c != Drink
    ensures CalculateNutriScore(row.(isWater := isWater), c) == CalculateNutriScore(row, c)
  {
  }

  /** Once the protein points are excluded, neither the protein value nor
      the red-meat flag can change the result. */
  lemma ProteinIgnoredWhenExcluded(row: Row, c: Category, protein: real, isRedMeat: bool)
    requires ProteinExcluded(CalculateComponentScores(row, c), c)
    ensures CalculateNutriScore(row.(protein := protein, isRedMeat := isRedMeat), c) == CalculateNutriScore(row, c)
  {
    var s := CalculateComponentScores(row, c);
    var s' := CalculateComponentScores(row.(protein := protein, isRedMeat := isRedMeat), c);
    assert s'.NPoints() == s.NPoints() && s'.fruit == s.fruit && s'.fibre == s.fibre;
    assert FinalScore(s', c) == FinalScore(s, c);
  }

  /** `worse` has at least as much of every unfavourable nutrient and at most
      as much of every favourable one, with the same flags. */
  predicate NoBetterThan(worse: Row, better: Row) {
    && better.energy <= worse.energy
    && better.sugar <= worse.sugar
    && better.saturates <= worse.saturates
    && better.salt <= worse.salt
    && worse.fruitVegPulses <= better.fruitVegPulses
    && worse.fibre <= better.fibre
    && worse.protein <= better.protein
    && worse.containsSweeteners == better.containsSweeteners
    && worse.isRedMeat == better.isRedMeat
    && worse.isWater == better.isWater
  }

  /** More of an unfavourable nutrient or less of a favourable one never
      lowers the final score and never gives a better grade. */
  lemma NutrientMonotone(worse: Row, better: Row, c: Category)
    requires NoBetterThan(worse, better)
    ensures CalculateNutriScore(better, c).0 <= CalculateNutriScore(worse, c).0
    ensures Rank(CalculateNutriScore(better, c).1) <= Rank(CalculateNutriScore(worse, c).1)
  {
    if !(c == Drink && worse.isWater) {
      var sb := CalculateComponentScores(better, c);
      var sw := CalculateComponentScores(worse, c);
      EnergyMonotone(c, better.energy, worse.energy);
      SugarMonotone(c, better.sugar, worse.sugar);
      SaturatesMonotone(c, better.saturates, worse.saturates);
      SaltMonotone(c, better.salt, worse.salt);
      FruitMonotone(c, worse.fruitVegPulses, better.fruitVegPulses);
      FibreMonotone(c, worse.fibre, better.fibre);
      ProteinMonotone(c, worse.protein, better.protein, worse.isRedMeat);
      assert sb.NPoints() <= sw.NPoints();
      assert FinalScore(sb, c) <= FinalScore(sw, c);
      GradeBandsTile(FinalScore(sb, c), FinalScore(sw, c), c);
    }
  }

  /** A proof step for `ZeroRowScore`: a product with every nutrient at 0
      and no sweetener flag scores 0 on every component in every category,
      since every table's first row starts at 0 with 0 points. */
  lemma ZeroRowComponents(row: Row, c: Category)
    requires row.energy == 0.0 && row.sugar == 0.0 && row.saturates == 0.0 && row.salt == 0.0
    requires row.fruitVegPulses == 0.0 && row.fibre == 0.0 && row.protein == 0.0
    requires !row.containsSweeteners
    ensures CalculateComponentScores(row, c) == ComponentScores(0, 0, 0, 0, 0, 0, 0, 0)
  {
    AllTablesWellFormed(c);
    ScoreIsPointsOfRow(0.0, EnergyTable(c), 0);
    ScoreIsPointsOfRow(0.0, SugarTable(c), 0);
    ScoreIsPointsOfRow(0.0, SaturatesTable(c), 0);
    ScoreIsPointsOfRow(0.0, SaltTable(c), 0);
    ScoreIsPointsOfRow(0.0, FruitTable(c), 0);
    ScoreIsPointsOfRow(0.0, FibreTable(c), 0);
    ScoreIsPointsOfRow(0.0, ProteinTable(c), 0);
  }

  /** A proof step for `ZeroRowScore`: a product whose component scores are
      all 0 (not flagged as water) scores 0 in every category, grade A for
      general food and drinks but B for fats, whose A band ends at -6. */
  lemma ZeroComponentsResult(row: Row, c: Category)
    requires !row.isWater
    requires CalculateComponentScores(row, c) == ComponentScores(0, 0, 0, 0, 0, 0, 0, 0)
    ensures CalculateNutriScore(row, c) == (0, if c == Fat then B else A)
  {
    ZeroScoresResult(c);
  }

  /** A proof step for `ZeroRowScore`, kept apart so the literal arithmetic
      stays out of the row: all-zero component scores give final score 0,
      and 0 is grade A except for fats. */
  lemma ZeroScoresResult(c: Category)
    ensures var s := ComponentScores(0, 0, 0, 0, 0, 0, 0, 0);
      FinalScore(s, c) == 0 && GradeFor(0, c) == (if c == Fat then B else A)
  {
    var s := ComponentScores(0, 0, 0, 0, 0, 0, 0, 0);
    assert s.NPoints() == 0 && s.PPoints() == 0;
    GradeRanges(0, c);
  }

  /** A product with every nutrient at 0 and neither flag scores 0, grade A
      (B for fats). */
  lemma ZeroRowScore(row: Row, c: Category)
    requires row.energy == 0.0 && row.sugar == 0.0 && row.saturates == 0.0 && row.salt == 0.0
    requires row.fruitVegPulses == 0.0 && row.fibre == 0.0 && row.protein == 0.0
    requires !row.containsSweeteners && !row.isWater
    ensures CalculateNutriScore(row, c) == (0, if c == Fat then B else A)
  {
    ZeroRowComponents(row, c);
    ZeroComponentsResult(row, c);
  }

  /** A proof step for `FatRestrictionExample`: a fat with 960 kJ (8 energy
      points), 20 g protein (8 protein points) and nothing else has N = 8 and
      P = 8. */
  lemma FatExampleComponents(row: Row, c: Category)
    requires c == Fat
    requires row.energy == 960.0 && row.protein == 20.0
    requires row.sugar == 0.0 && row.saturates == 0.0 && row.salt == 0.0
    requires row.fruitVegPulses == 0.0 && row.fibre == 0.0
    ensures CalculateComponentScores(row, c) == ComponentScores(8, 0, 0, 0, 0, 0, 0, 8)
  {
    AllTablesWellFormed(c);
    ScoreIsPointsOfRow(row.energy, EnergyTable(c), 8);
    ScoreIsPointsOfRow(row.sugar, SugarTable(c), 0);
    ScoreIsPointsOfRow(row.saturates, SaturatesTable(c), 0);
    ScoreIsPointsOfRow(row.salt, SaltTable(c), 0);
    ScoreIsPointsOfRow(row.fruitVegPulses, FruitTable(c), 0);
    ScoreIsPointsOfRow(row.fibre, FibreTable(c), 0);
    ScoreIsPointsOfRow(row.protein, ProteinTable(c), 8);
  }

  /** A proof step for `FatRestrictionExample`: a fat whose N = 8 and P = 8
      all come from energy and protein scores (8, C). */
  lemma FatComponentsResult(row: Row, c: Category)
    requires c == Fat
    requires CalculateComponentScores(row, c) == ComponentScores(8, 0, 0, 0, 0, 0, 0, 8)
    ensures CalculateNutriScore(row, c) == (8, C)
  {
    FatScoresResult();
  }

  /** A proof step for `FatRestrictionExample`, kept apart so the literal
      arithmetic stays out of the row: fat component scores N = 8 (energy)
      and P = 8 (protein) exclude the protein, and the final score is 8,
      grade C, where subtracting all P-points would give 0. */
  lemma FatScoresResult()
    ensures var s := ComponentScores(8, 0, 0, 0, 0, 0, 0, 8);
      && ProteinExcluded(s, Fat) && s.NPoints() - s.PPoints() == 0
      && FinalScore(s, Fat) == 8 && GradeFor(8, Fat) == C
  {
    var s := ComponentScores(8, 0, 0, 0, 0, 0, 0, 8);
    assert s.NPoints() == 8 && s.PPoints() == 8;
    GradeRanges(8, Fat);
  }

  /** The fat of `FatExampleComponents` scores 8, grade C: its N-points
      reach 7, so the protein is excluded, where subtracting all P-points
      would have given 0. */
  lemma FatRestrictionExample(row: Row, c: Category)
    requires c == Fat
    requires row.energy == 960.0 && row.protein == 20.0
    requires row.sugar == 0.0 && row.saturates == 0.0 && row.salt == 0.0
    requires row.fruitVegPulses == 0.0 && row.fibre == 0.0
    ensures var s := CalculateComponentScores(row, c);
      ProteinExcluded(s, c) && s.NPoints() - s.PPoints() == 0
    ensures CalculateNutriScore(row, c) == (8, C)
  {
    FatExampleComponents(row, c);
    FatScoresResult();
    FatComponentsResult(row, c);
  }
}
