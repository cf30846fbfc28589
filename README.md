# Nutri-Score scoring engine (Dafny model)

This project models the scoring engine of a Nutri-Score calculator, lines
1-195 of `nutriscore_app.py`. The engine takes the nutrient values of one
product (per 100 g or 100 mL) and a category (general food, fats, drinks).
It returns the component points, the N-points and P-points totals, an
integer final score and a letter grade from A to E.

- `tables.dfy` (module `Tables`) holds:
  - the scoring tables `ENERGY_SCORING` … `PROTEIN_SCORING`, as sequences of
    `Interval(low, high, points)` whose last `high` is `Inf`;
  - the per-category table selectors;
  - proofs that every table starts at 0 with 0 points, is contiguous up to
    +infinity and has non-decreasing points.
- `scoring.dfy` (module `Scoring`) holds `score_component`, written as its
  two loops: the forward first-match scan with `low <= value < high`, then
  the reversed `value >= low` scan, then 0. It also holds the seven
  `get_*_points` getters, including the red-meat protein cap. The lemmas
  prove:
  - every value >= 0 lies in exactly one row;
  - a negative value scores 0;
  - scores are bounded and monotone;
  - the boundary cases of the left-closed, right-open convention.
- `grading.dfy` (module `Grading`) holds the grade bands
  `CATEGORY_THRESHOLDS` and the closed-closed band scan with its `"E"`
  fallback. The lemmas prove that the bands of every category tile the
  integers, that the fallback is never taken, and that the grade is
  monotone in the score.
- `nutriscore.dfy` (module `NutriScore`) holds
  `calculate_component_scores`, which builds a record of the eight
  components, and `calculate_nutri_score`, which applies:
  - the water override;
  - the N/P totals;
  - the category-dependent subtraction;
  - the grade.

All of the engine is pure. The getters and scans are first-match loops that
return on the first hit. `calculate_component_scores` fills a fresh
dictionary that does not outlive the call. So every operation is a Dafny
function, and the properties are its `ensures` clauses and lemmas.

Nutrient values are exact `real`s. A product is a `Row` record whose three
flags stand for the `row.get(..., False)` lookups.

The model follows the code as written:
- The intervals are `low <= value < high`, and the first row of every
  table starts at 0. So general energy 335 scores 1, and general sugar 3.4
  scores 1. A negative value matches no row and falls through both loops
  to 0.
- The protein restriction depends only on the category and the N-points.
- Fats score energy from the energy field.
- The grade scan keeps the `"E"` fallback. It is proved unreachable.

## Model

| member | source | states |
|---|---|---|
| Tables.EnergyGeneralWellFormed | nutriscore_app.py:23-25 | the general energy table starts at 0 with 0 points, its rows meet end to start with strictly increasing bounds and non-decreasing points, it ends at +infinity, and its top is 10 |
| Tables.EnergyDrinkWellFormed | nutriscore_app.py:26-28 | the same shape for the drink energy table, top 10 |
| Tables.EnergyFatWellFormed | nutriscore_app.py:29-31 | the same shape for the fat energy table, top 10 |
| Tables.SugarGeneralWellFormed | nutriscore_app.py:35-45 | the same shape for the sugar table shared by general food (lines 35-38) and fats (lines 42-45), top 15 |
| Tables.SugarDrinkWellFormed | nutriscore_app.py:39-41 | the same shape for the drink sugar table, top 10 |
| Tables.SaturatesGeneralWellFormed | nutriscore_app.py:49-52 | the same shape for the general and drink saturated-fat table, top 10 |
| Tables.SaturatesFatWellFormed | nutriscore_app.py:53-54 | the same shape for the fat saturated-fat table, top 10 |
| Tables.SaltAllWellFormed | nutriscore_app.py:58-72 | the same shape for the salt table of every category, top 20 |
| Tables.FruitGeneralWellFormed | nutriscore_app.py:76-78 | the same shape for the fruit/vegetable/pulse table shared by general food (line 76) and fats (line 78), top 5 |
| Tables.FruitDrinkWellFormed | nutriscore_app.py:77 | the same shape for the drink fruit/vegetable/pulse table, top 6 |
| Tables.FibreAllWellFormed | nutriscore_app.py:82-84 | the same shape for the fibre table of every category, top 5 |
| Tables.ProteinGeneralWellFormed | nutriscore_app.py:88-93 | the same shape for the protein table shared by general food (lines 88-89) and fats (lines 92-93), top 8 |
| Tables.ProteinDrinkWellFormed | nutriscore_app.py:90-91 | the same shape for the drink protein table, top 7 |
| Tables.AllTablesWellFormed | nutriscore_app.py:22-94 | every table of every category is well formed, with tops energy 10, sugar 15 (drink 10), saturates 10, salt 20, fruit 5 (drink 6), fibre 5 and protein 8 (drink 7) |
| Tables.EnergyTable | nutriscore_app.py:22-32 | no contract; `ENERGY_SCORING[category]` as the constants `EnergyGeneral`, `EnergyDrink`, `EnergyFat`; its shape is stated by AllTablesWellFormed |
| Tables.SugarTable | nutriscore_app.py:34-46 | no contract; `SUGAR_SCORING[category]`, with `SugarGeneral` shared by general food and fats; its shape is stated by AllTablesWellFormed |
| Tables.SaturatesTable | nutriscore_app.py:48-55 | no contract; `SAT_FAT_SCORING[category]`, with `SaturatesGeneral` shared by general food and drinks; its shape is stated by AllTablesWellFormed |
| Tables.SaltTable | nutriscore_app.py:57-73 | no contract; `SALT_SCORING[category]`, the one constant `SaltAll` for every category; its shape is stated by AllTablesWellFormed |
| Tables.FruitTable | nutriscore_app.py:75-79 | no contract; `FRUIT_SCORING[category]`, with `FruitGeneral` shared by general food and fats; its shape is stated by AllTablesWellFormed |
| Tables.FibreTable | nutriscore_app.py:81-85 | no contract; `FIBRE_SCORING[category]`, the one constant `FibreAll` for every category; its shape is stated by AllTablesWellFormed |
| Tables.ProteinTable | nutriscore_app.py:87-94 | no contract; `PROTEIN_SCORING[category]`, with `ProteinGeneral` shared by general food and fats; its shape is stated by AllTablesWellFormed |
| Scoring.FirstMatch | nutriscore_app.py:100-102 | a row the forward loop returns lies at or after the start and holds the value |
| Scoring.FirstMatchIsFirst | nutriscore_app.py:100-102 | no earlier row holds the value, and the loop finds nothing exactly when no row holds it |
| Scoring.LastStartingAtOrBelow | nutriscore_app.py:104-106 | a row the reversed loop returns starts at or below the value |
| Scoring.LastStartingAtOrBelowIsLast | nutriscore_app.py:104-106 | every later row starts above the value, and the loop finds nothing exactly when every row starts above it |
| Scoring.ContiguousOrdered | nutriscore_app.py:22-94 | in a contiguous table every row lies wholly before every later row and awards no more points |
| Scoring.ContiguousCovers | nutriscore_app.py:100-102 | in a contiguous table the forward loop finds a row for every value at or above the first row's lower bound |
| Scoring.IntervalsDisjoint | nutriscore_app.py:100-102 | no value lies in two rows of a well-formed table |
| Scoring.ScoreComponent | nutriscore_app.py:99-107 | no contract; the forward loop `FirstMatch`, then the reversed loop `LastStartingAtOrBelow`, then 0; its meaning is stated by ScoreIsPointsOfRow, ExactlyOneRow, NegativeScoresZero, ScoreBounds and ScoreMonotone |
| Scoring.ScoreIsPointsOfRow | nutriscore_app.py:99-102 | `score_component` returns the points of the row holding the value |
| Scoring.ExactlyOneRow | nutriscore_app.py:99-107 | a value >= 0 lies in exactly one row, the forward loop finds a row so the reversed loop is never reached, and the score is that row's points |
| Scoring.NegativeScoresZero | nutriscore_app.py:99-107 | a negative value lies in no row, so the forward loop finds nothing; every row starts above it, so the reversed loop finds nothing too; and the score is the final fallback 0 |
| Scoring.ScoreBounds | nutriscore_app.py:99-107 | the score lies between 0 and the table's top points |
| Scoring.ScoreMonotone | nutriscore_app.py:99-107 | a larger value never scores fewer points |
| Scoring.EnergyPoints | nutriscore_app.py:109-110 | energy points lie in 0..10 |
| Scoring.SugarPoints | nutriscore_app.py:112-113 | sugar points lie in 0..15, or 0..10 for drinks |
| Scoring.SaturatesPoints | nutriscore_app.py:115-116 | saturated-fat points lie in 0..10 |
| Scoring.SaltPoints | nutriscore_app.py:118-119 | salt points lie in 0..20 |
| Scoring.FruitPoints | nutriscore_app.py:121-122 | fruit/vegetable/pulse points lie in 0..5, or 0..6 for drinks |
| Scoring.FibrePoints | nutriscore_app.py:124-125 | fibre points lie in 0..5 |
| Scoring.ProteinPoints | nutriscore_app.py:127-131 | protein points lie in 0..8, in 0..7 for drinks, and in 0..2 for red meat in the general category |
| Scoring.RedMeatCap | nutriscore_app.py:127-131 | for general food with the red-meat flag the points are `min(lookup, 2)`; in any other case they equal the plain table lookup |
| Scoring.EnergyMonotone | nutriscore_app.py:109-110 | more energy never gives fewer points |
| Scoring.SugarMonotone | nutriscore_app.py:112-113 | more sugar never gives fewer points |
| Scoring.SaturatesMonotone | nutriscore_app.py:115-116 | more saturated fat never gives fewer points |
| Scoring.SaltMonotone | nutriscore_app.py:118-119 | more salt never gives fewer points |
| Scoring.FruitMonotone | nutriscore_app.py:121-122 | a higher fruit/vegetable/pulse share never gives fewer points |
| Scoring.FibreMonotone | nutriscore_app.py:124-125 | more fibre never gives fewer points |
| Scoring.ProteinMonotone | nutriscore_app.py:127-131 | more protein never gives fewer points, with or without the red-meat cap |
| Scoring.EnergyBoundaryCases | nutriscore_app.py:23 | general energy 334.9 scores 0, while 335 and 336 score 1: an upper bound belongs to the next row |
| Scoring.SugarBoundaryCases | nutriscore_app.py:35 | general sugar 3.39 scores 0, while 3.4 and 3.5 score 1 |
| Scoring.SaltTopCase | nutriscore_app.py:63-67 | drink salt 4.0 falls in the open-ended last row and scores 20 |
| Scoring.RedMeatExample | nutriscore_app.py:127-131 | 20 g of protein in general food scores 8 without the red-meat flag and 2 with it |
| Grading.FirstBand | nutriscore_app.py:191-193 | a band the grade scan returns lies at or after the start and holds the score |
| Grading.FirstBandIsFirst | nutriscore_app.py:191-193 | no earlier band holds the score, and the scan finds nothing exactly when no band holds it |
| Grading.GradeBands | nutriscore_app.py:7-11 | no contract; `CATEGORY_THRESHOLDS[category]` as the constants `GeneralBands`, `DrinkBands`, `FatBands`; their shape is stated by AllBandsWellFormed and GradeRanges |
| Grading.Classify | nutriscore_app.py:191-195 | no contract; the grade of the first band holding the score, else `"E"`; its meaning is stated by ClassifyIsGradeOfBand, ClassifyMonotone and ExactlyOneBand |
| Grading.GradeFor | nutriscore_app.py:191-195 | no contract; `Classify` over the category's bands; its meaning is stated by GradeBandsTile and GradeRanges |
| Grading.AllBandsWellFormed | nutriscore_app.py:7-11 | each category's bands start at -infinity, each is non-empty, each starts one past the previous one's end, grades go strictly from A to E, and the last band is open to +infinity |
| Grading.TilesOrdered | nutriscore_app.py:7-11 | in tiled bands every band lies wholly below every later band and has a strictly better grade |
| Grading.TilesCover | nutriscore_app.py:191-193 | in tiled bands the scan finds a band for every score at or above the starting band's lower end |
| Grading.ExactlyOneBand | nutriscore_app.py:191-195 | every integer score lies in exactly one band, so the scan always finds one |
| Grading.ClassifyIsGradeOfBand | nutriscore_app.py:191-193 | the grade returned is that of the band holding the score |
| Grading.ClassifyMonotone | nutriscore_app.py:191-195 | a higher score never gets a better grade |
| Grading.GradeBandsTile | nutriscore_app.py:191-195 | in every category the `"E"` fallback is never reached, and grades are monotone in the score |
| Grading.GradeRanges | nutriscore_app.py:7-11 | the grade of each category as explicit ranges, e.g. general <=0 A, 1-2 B, 3-10 C, 11-18 D, >=19 E, and fat <=-6 A, -5..2 B |
| NutriScore.CalculateComponentScores | nutriscore_app.py:136-153 | every component lies in its table's range; the sweetener penalty is 4 exactly for a drink with sweeteners, and otherwise 0; N-points lie in 0..55 (0..54 for drinks) and P-points in 0..18 |
| NutriScore.ComponentScores.NPoints | nutriscore_app.py:167-169 | no contract; the sum of energy, sugar, saturates, salt and the sweetener penalty; its range is stated by CalculateComponentScores |
| NutriScore.ComponentScores.PPoints | nutriscore_app.py:171 | no contract; the sum of fruit, fibre and protein; its range is stated by CalculateComponentScores |
| NutriScore.FinalScore | nutriscore_app.py:174-188 | no contract; the category-dependent subtraction; its meaning is stated by SubtractionRule |
| NutriScore.CalculateNutriScore | nutriscore_app.py:158-195 | water in the drink category gives (0, A); otherwise the score lies in -18..55 and the grade is that score's band |
| NutriScore.SubtractionRule | nutriscore_app.py:167-188 | fats with N >= 7 and general food with N >= 11 subtract only fruit and fibre; all other cases, drinks included, subtract all P-points; hence N - P <= final <= N |
| NutriScore.SweetenerCountsInNOnly | nutriscore_app.py:146 | setting the sweetener flag adds exactly 4 to a drink's N-points and nothing elsewhere, and never changes P-points |
| NutriScore.WaterFlagIgnoredOutsideDrinks | nutriscore_app.py:160-161 | for general food and fats the water flag does not change the result |
| NutriScore.ProteinIgnoredWhenExcluded | nutriscore_app.py:177-186 | once protein is excluded from the subtraction, neither the protein value nor the red-meat flag changes the result |
| NutriScore.NutrientMonotone | nutriscore_app.py:136-195 | more of an unfavourable nutrient, or less of a favourable one, never lowers the score and never improves the grade |
| NutriScore.ZeroRowComponents | nutriscore_app.py:136-153 | a product with every nutrient at 0 and no sweeteners scores 0 on every component in every category |
| NutriScore.ZeroComponentsResult | nutriscore_app.py:164-195 | all-zero components give final score 0, which is grade A for general food and drinks but B for fats |
| NutriScore.ZeroScoresResult | nutriscore_app.py:174-195 | all-zero component scores give final score 0, and 0 is grade A in every category but fats, where it is B |
| NutriScore.ZeroRowScore | nutriscore_app.py:158-195 | an all-zero product that is not water scores (0, A), or (0, B) for fats |
| NutriScore.FatExampleComponents | nutriscore_app.py:136-153 | a fat with 960 kJ, 20 g protein and nothing else gets 8 energy points and 8 protein points, and 0 for every other component |
| NutriScore.FatComponentsResult | nutriscore_app.py:177-182 | a fat with N = 8 and P = 8 all from protein keeps its protein out of the subtraction and scores (8, C) |
| NutriScore.FatScoresResult | nutriscore_app.py:177-195 | fat component scores N = 8 from energy and P = 8 from protein exclude the protein, N - P is 0, and the final score is 8, grade C |
| NutriScore.FatRestrictionExample | nutriscore_app.py:158-195 | the fat of `FatExampleComponents` has its protein excluded, its N - P is 0, so subtracting all P-points would give 0, and it scores (8, C) |

## Left out

- The Streamlit user interface and pandas I/O (nutriscore_app.py:200-290): file upload, CSV/Excel parsing, the required-column check, result tables and the download. This is I/O glue with no rule of its own.
- `CATEGORY_MAP` (nutriscore_app.py:13-17), the mapping from the display names the user interface offers to the category keys, is UI glue; the model takes a `Category` directly.
- `nutriscore_single_beverage_demo.py` is not part of this model. It is a manual-entry form that calls functions `nutriscore_app.py` does not define, and it stores the water flag under a different key.
- IEEE-754 floating point: values and thresholds are exact reals. So NaN inputs are not modelled. Neither is the path `value = +inf`, the only input with which the reversed loop (nutriscore_app.py:104-106) returns a row. The model still contains that loop. `NegativeScoresZero` proves that it returns nothing for negative values, and `ExactlyOneRow` (through `ContiguousCovers`) that the forward loop always finds a row for values >= 0, so the reversed loop is never reached.
- Dictionary key names such as `"Energy Score"` and `"Is red meat"` become record fields. A missing column raising `KeyError` is not modelled, because a `Row` always has every field.
- The table dictionaries repeat identical literals for some categories: sugar, fruit/vegetables/pulses and protein for general and fat, saturated fat for general and drink, salt and fibre for all three. Each such literal is defined once and selected per category.
- The three flags are clean booleans. The code tests whatever value the cell holds (nutriscore_app.py:129, 146, 160) by Python truthiness, so a blank cell read as NaN, or a string such as "No", counts as true. Truthiness of values other than true and false is not modelled.

## Findings

None. Every natural property stated above holds of the code as written.
