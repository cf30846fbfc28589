/** Threshold tables of the Nutri-Score engine (nutriscore_app.py:22-94).

    A scoring table is an ordered list of intervals `(low, high, points)`.
    The scorer tests them with `low <= value < high` (left-closed,
    right-open) and the last upper bound is infinite.  Values are modelled
    as exact reals; `float("inf")` upper bounds become `Inf`.
 */
module Tables {

  datatype Option<T> = None | Some(value: T)

  /** The three category keys of the tables: "general", "fat", "drink". */
  datatype Category = General | Fat | Drink

  /** An upper bound of a scoring interval: a number or +infinity. */
  datatype Bound = Fin(value: real) | Inf

  datatype Interval = Interval(low: real, high: Bound, points: int)

  /** The interval test of the scorer: `low <= v < high`. */
  predicate InInterval(v: real, iv: Interval) {
    iv.low <= v && (iv.high.Inf? || v < iv.high.value)
  }

  /** From row `k` on, each row ends where the next begins, lower bounds
      strictly increase, points never decrease, and the last row is open
      to +infinity. */
  predicate ContiguousFrom(t: seq<Interval>, k: nat)
    requires k < |t|
    decreases |t| - k
  {
    if k == |t| - 1 then t[k].high == Inf
    else
      && t[k].high == Fin(t[k + 1].low)
      && t[k].low < t[k + 1].low
      && t[k].points <= t[k + 1].points
      && ContiguousFrom(t, k + 1)
  }

  /** The shape every table of the engine has: it starts at 0 with 0 points
      and is contiguous up to +infinity. */
  predicate WellFormed(t: seq<Interval>) {
    |t| > 0 && t[0].low == 0.0 && t[0].points == 0 && ContiguousFrom(t, 0)
  }

  /** Points of the last row, the largest the table awards. */
  function Top(t: seq<Interval>): int
    requires |t| > 0
  {
    t[|t| - 1].points
  }

  /** Energy (kJ) points for general food, nutriscore_app.py:23-25. */
  const EnergyGeneral: seq<Interval> := [
    Interval(0.0, Fin(335.0), 0), Interval(335.0, Fin(670.0), 1), Interval(670.0, Fin(1005.0), 2), Interval(1005.0, Fin(1340.0), 3),
    Interval(1340.0, Fin(1675.0), 4), Interval(1675.0, Fin(2010.0), 5), Interval(2010.0, Fin(2345.0), 6), Interval(2345.0, Fin(2680.0), 7),
    Interval(2680.0, Fin(3015.0), 8), Interval(3015.0, Fin(3350.0), 9), Interval(3350.0, Inf, 10)
  ]

  /** Energy (kJ) points for drinks, nutriscore_app.py:26-28. */
  const EnergyDrink: seq<Interval> := [
    Interval(0.0, Fin(30.0), 0), Interval(30.0, Fin(90.0), 1), Interval(90.0, Fin(150.0), 2), Interval(150.0, Fin(210.0), 3),
    Interval(210.0, Fin(240.0), 4), Interval(240.0, Fin(270.0), 5), Interval(270.0, Fin(300.0), 6), Interval(300.0, Fin(330.0), 7),
    Interval(330.0, Fin(360.0), 8), Interval(360.0, Fin(390.0), 9), Interval(390.0, Inf, 10)
  ]

  /** Energy (kJ) points for fats, oils, nuts and seeds, nutriscore_app.py:29-31. */
  const EnergyFat: seq<Interval> := [
    Interval(0.0, Fin(120.0), 0), Interval(120.0, Fin(240.0), 1), Interval(240.0, Fin(360.0), 2), Interval(360.0, Fin(480.0), 3),
    Interval(480.0, Fin(600.0), 4), Interval(600.0, Fin(720.0), 5), Interval(720.0, Fin(840.0), 6), Interval(840.0, Fin(960.0), 7),
    Interval(960.0, Fin(1080.0), 8), Interval(1080.0, Fin(1200.0), 9), Interval(1200.0, Inf, 10)
  ]

  /** Sugar (g) points for general food and for fats, nutriscore_app.py:35-38 and 42-45 (the two literals are identical). */
  const SugarGeneral: seq<Interval> := [
    Interval(0.0, Fin(3.4), 0), Interval(3.4, Fin(6.8), 1), Interval(6.8, Fin(10.0), 2), Interval(10.0, Fin(14.0), 3),
    Interval(14.0, Fin(17.0), 4), Interval(17.0, Fin(20.0), 5), Interval(20.0, Fin(24.0), 6), Interval(24.0, Fin(27.0), 7),
    Interval(27.0, Fin(31.0), 8), Interval(31.0, Fin(34.0), 9), Interval(34.0, Fin(37.0), 10), Interval(37.0, Fin(41.0), 11),
    Interval(41.0, Fin(44.0), 12), Interval(44.0, Fin(48.0), 13), Interval(48.0, Fin(51.0), 14), Interval(51.0, Inf, 15)
  ]

  /** Sugar (g) points for drinks, nutriscore_app.py:39-41. */
  const SugarDrink: seq<Interval> := [
    Interval(0.0, Fin(0.5), 0), Interval(0.5, Fin(2.0), 1), Interval(2.0, Fin(3.5), 2), Interval(3.5, Fin(5.0), 3),
    Interval(5.0, Fin(6.0), 4), Interval(6.0, Fin(7.0), 5), Interval(7.0, Fin(8.0), 6), Interval(8.0, Fin(9.0), 7),
    Interval(9.0, Fin(10.0), 8), Interval(10.0, Fin(11.0), 9), Interval(11.0, Inf, 10)
  ]

  /** Saturated fat (g) points for general food and drinks, nutriscore_app.py:49-52 (the two literals are identical). */
  const SaturatesGeneral: seq<Interval> := [
    Interval(0.0, Fin(1.0), 0), Interval(1.0, Fin(2.0), 1), Interval(2.0, Fin(3.0), 2), Interval(3.0, Fin(4.0), 3),
    Interval(4.0, Fin(5.0), 4), Interval(5.0, Fin(6.0), 5), Interval(6.0, Fin(7.0), 6), Interval(7.0, Fin(8.0), 7),
    Interval(8.0, Fin(9.0), 8), Interval(9.0, Fin(10.0), 9), Interval(10.0, Inf, 10)
  ]

  /** Saturated fat (g) points for fats, nutriscore_app.py:53-54. */
  const SaturatesFat: seq<Interval> := [
    Interval(0.0, Fin(10.0), 0), Interval(10.0, Fin(16.0), 1), Interval(16.0, Fin(22.0), 2), Interval(22.0, Fin(28.0), 3),
    Interval(28.0, Fin(34.0), 4), Interval(34.0, Fin(40.0), 5), Interval(40.0, Fin(46.0), 6), Interval(46.0, Fin(52.0), 7),
    Interval(52.0, Fin(58.0), 8), Interval(58.0, Fin(64.0), 9), Interval(64.0, Inf, 10)
  ]

  /** Salt (g) points, one literal repeated for all three categories, nutriscore_app.py:58-72. */
  const SaltAll: seq<Interval> := [
    Interval(0.0, Fin(0.2), 0), Interval(0.2, Fin(0.4), 1), Interval(0.4, Fin(0.6), 2), Interval(0.6, Fin(0.8), 3),
    Interval(0.8, Fin(1.0), 4), Interval(1.0, Fin(1.2), 5), Interval(1.2, Fin(1.4), 6), Interval(1.4, Fin(1.6), 7),
    Interval(1.6, Fin(1.8), 8), Interval(1.8, Fin(2.0), 9), Interval(2.0, Fin(2.2), 10), Interval(2.2, Fin(2.4), 11),
    Interval(2.4, Fin(2.6), 12), Interval(2.6, Fin(2.8), 13), Interval(2.8, Fin(3.0), 14), Interval(3.0, Fin(3.2), 15),
    Interval(3.2, Fin(3.4), 16), Interval(3.4, Fin(3.6), 17), Interval(3.6, Fin(3.8), 18), Interval(3.8, Fin(4.0), 19),
    Interval(4.0, Inf, 20)
  ]

  /** Fruit, vegetable and pulse (%) points for general food and fats, nutriscore_app.py:76 and 78. */
  const FruitGeneral: seq<Interval> := [
    Interval(0.0, Fin(40.0), 0), Interval(40.0, Fin(60.0), 2), Interval(60.0, Fin(80.0), 5), Interval(80.0, Inf, 5)
  ]

  /** Fruit, vegetable and pulse (%) points for drinks, nutriscore_app.py:77. */
  const FruitDrink: seq<Interval> := [
    Interval(0.0, Fin(40.0), 0), Interval(40.0, Fin(60.0), 2), Interval(60.0, Fin(80.0), 4), Interval(80.0, Inf, 6)
  ]

  /** Fibre (g) points, one literal repeated for all three categories, nutriscore_app.py:82-84. */
  const FibreAll: seq<Interval> := [
    Interval(0.0, Fin(3.0), 0), Interval(3.0, Fin(4.1), 2), Interval(4.1, Fin(5.2), 3), Interval(5.2, Fin(6.3), 4),
    Interval(6.3, Fin(7.4), 5), Interval(7.4, Inf, 5)
  ]

  /** Protein (g) points for general food and fats, nutriscore_app.py:88-89 and 92-93. */
  const ProteinGeneral: seq<Interval> := [
    Interval(0.0, Fin(1.2), 0), Interval(1.2, Fin(2.4), 1), Interval(2.4, Fin(4.8), 2), Interval(4.8, Fin(7.2), 3),
    Interval(7.2, Fin(9.6), 4), Interval(9.6, Fin(12.0), 5), Interval(12.0, Fin(14.0), 6), Interval(14.0, Fin(17.0), 7),
    Interval(17.0, Inf, 8)
  ]

  /** Protein (g) points for drinks, nutriscore_app.py:90-91. */
  const ProteinDrink: seq<Interval> := [
    Interval(0.0, Fin(1.2), 0), Interval(1.2, Fin(1.5), 1), Interval(1.5, Fin(1.8), 2), Interval(1.8, Fin(2.1), 3),
    Interval(2.1, Fin(2.4), 4), Interval(2.4, Fin(2.7), 5), Interval(2.7, Fin(3.0), 6), Interval(3.0, Inf, 7)
  ]

  // Per-category selection, as the dictionaries ENERGY_SCORING, SUGAR_SCORING,
  // ... (nutriscore_app.py:22-94) are indexed by the category key.  Where the
  // source repeats an identical literal for two categories, it is defined once.

  function EnergyTable(c: Category): seq<Interval> {
    match c
    case General => EnergyGeneral
    case Drink => EnergyDrink
    case Fat => EnergyFat
  }

  function SugarTable(c: Category): seq<Interval> {
    if c == Drink then SugarDrink else SugarGeneral
  }

  function SaturatesTable(c: Category): seq<Interval> {
    if c == Fat then SaturatesFat else SaturatesGeneral
  }

  function SaltTable(c: Category): seq<Interval> {
    SaltAll
  }

  function FruitTable(c: Category): seq<Interval> {
    if c == Drink then FruitDrink else FruitGeneral
  }

  function FibreTable(c: Category): seq<Interval> {
    FibreAll
  }

  function ProteinTable(c: Category): seq<Interval> {
    if c == Drink then ProteinDrink else ProteinGeneral
  }

  // Each literal table is well formed.  Dafny unfolds ContiguousFrom on the
  // shorter tables by itself; the 21-row salt table needs the chain of
  // assertions from the last row back to the first.

  lemma EnergyGeneralWellFormed()
    ensures WellFormed(EnergyGeneral) && Top(EnergyGeneral) == 10
  {
  }

  lemma EnergyDrinkWellFormed()
    ensures WellFormed(EnergyDrink) && Top(EnergyDrink) == 10
  {
  }

  lemma EnergyFatWellFormed()
    ensures WellFormed(EnergyFat) && Top(EnergyFat) == 10
  {
  }

  lemma SugarGeneralWellFormed()
    ensures WellFormed(SugarGeneral) && Top(SugarGeneral) == 15
  {
  }

  lemma SugarDrinkWellFormed()
    ensures WellFormed(SugarDrink) && Top(SugarDrink) == 10
  {
  }

  lemma SaturatesGeneralWellFormed()
    ensures WellFormed(SaturatesGeneral) && Top(SaturatesGeneral) == 10
  {
  }

  lemma SaturatesFatWellFormed()
    ensures WellFormed(SaturatesFat) && Top(SaturatesFat) == 10
  {
  }

  lemma SaltAllWellFormed()
    ensures WellFormed(SaltAll) && Top(SaltAll) == 20
  {
    assert ContiguousFrom(SaltAll, 20);
    assert ContiguousFrom(SaltAll, 19);
    assert ContiguousFrom(SaltAll, 18);
    assert ContiguousFrom(SaltAll, 17);
    assert ContiguousFrom(SaltAll, 16);
    assert ContiguousFrom(SaltAll, 15);
    assert ContiguousFrom(SaltAll, 14);
    assert ContiguousFrom(SaltAll, 13);
    assert ContiguousFrom(SaltAll, 12);
    assert ContiguousFrom(SaltAll, 11);
    assert ContiguousFrom(SaltAll, 10);
    assert ContiguousFrom(SaltAll, 9);
    assert ContiguousFrom(SaltAll, 8);
    assert ContiguousFrom(SaltAll, 7);
    assert ContiguousFrom(SaltAll, 6);
    assert ContiguousFrom(SaltAll, 5);
    assert ContiguousFrom(SaltAll, 4);
    assert ContiguousFrom(SaltAll, 3);
    assert ContiguousFrom(SaltAll, 2);
    assert ContiguousFrom(SaltAll, 1);
    assert ContiguousFrom(SaltAll, 0);
  }

  lemma FruitGeneralWellFormed()
    ensures WellFormed(FruitGeneral) && Top(FruitGeneral) == 5
  {
  }

  lemma FruitDrinkWellFormed()
    ensures WellFormed(FruitDrink) && Top(FruitDrink) == 6
  {
  }

  lemma FibreAllWellFormed()
    ensures WellFormed(FibreAll) && Top(FibreAll) == 5
  {
  }

  lemma ProteinGeneralWellFormed()
    ensures WellFormed(ProteinGeneral) && Top(ProteinGeneral) == 8
  {
  }

  lemma ProteinDrinkWellFormed()
    ensures WellFormed(ProteinDrink) && Top(ProteinDrink) == 7
  {
  }

  /** Every table of every category starts at 0, is contiguous to +infinity
      with non-decreasing points, and tops out at the points of its last row. */
  lemma AllTablesWellFormed(c: Category)
    ensures WellFormed(EnergyTable(c)) && Top(EnergyTable(c)) == 10
    ensures WellFormed(SugarTable(c)) && Top(SugarTable(c)) == (if c == Drink then 10 else 15)
    ensures WellFormed(SaturatesTable(c)) && Top(SaturatesTable(c)) == 10
    ensures WellFormed(SaltTable(c)) && Top(SaltTable(c)) == 20
    ensures WellFormed(FruitTable(c)) && Top(FruitTable(c)) == (if c == Drink then 6 else 5)
    ensures WellFormed(FibreTable(c)) && Top(FibreTable(c)) == 5
    ensures WellFormed(ProteinTable(c)) && Top(ProteinTable(c)) == (if c == Drink then 7 else 8)
  {
    match c
    case General =>
      EnergyGeneralWellFormed(); SugarGeneralWellFormed(); SaturatesGeneralWellFormed(); SaltAllWellFormed();
      FruitGeneralWellFormed(); FibreAllWellFormed(); ProteinGeneralWellFormed();
    case Drink =>
      EnergyDrinkWellFormed(); SugarDrinkWellFormed(); SaturatesGeneralWellFormed(); SaltAllWellFormed();
      FruitDrinkWellFormed(); FibreAllWellFormed(); ProteinDrinkWellFormed();
    case Fat =>
      EnergyFatWellFormed(); SugarGeneralWellFormed(); SaturatesFatWellFormed(); SaltAllWellFormed();
      FruitGeneralWellFormed(); FibreAllWellFormed(); ProteinGeneralWellFormed();
  }
}
