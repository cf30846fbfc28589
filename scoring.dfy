/** Component scorer: `score_component` and the per-nutrient `get_*_points`
    getters (nutriscore_app.py:99-131).
 */
module Scoring {
  import opened Tables

  /** The forward loop of `score_component` from row `k` on: the index of the
      first row whose interval holds `v`, if any. */
  function FirstMatch(v: real, t: seq<Interval>, k: nat): (r: Option<nat>)
    requires k <= |t|
    decreases |t| - k
    ensures r.Some? ==> k <= r.value < |t| && InInterval(v, t[r.value])
  {
    if k == |t| then None
    else if InInterval(v, t[k]) then Some(k)
    else FirstMatch(v, t, k + 1)
  }

  /** The forward loop returns the first matching row, and nothing exactly
      when no row from `k` on matches. */
  lemma {:induction false} FirstMatchIsFirst(v: real, t: seq<Interval>, k: nat)
    requires k <= |t|
    decreases |t| - k
    ensures var r := FirstMatch(v, t, k);
      && (r.Some? ==> forall j :: k <= j < r.value ==> !InInterval(v, t[j]))
      && (r.None? <==> forall j :: k <= j < |t| ==> !InInterval(v, t[j]))
  {
    if k < |t| && !InInterval(v, t[k]) {
      FirstMatchIsFirst(v, t, k + 1);
    }
  }

  /** The reversed fallback loop of `score_component` over rows `0 .. n-1`:
      the index of the last row whose lower bound is at most `v`, if any. */
  function LastStartingAtOrBelow(v: real, t: seq<Interval>, n: nat): (r: Option<nat>)
    requires n <= |t|
    ensures r.Some? ==> r.value < n && t[r.value].low <= v
  {
    if n == 0 then None
    else if t[n - 1].low <= v then Some(n - 1)
    else LastStartingAtOrBelow(v, t, n - 1)
  }

  /** The reversed loop returns the last row starting at or below `v`, and
      nothing exactly when every row starts above `v`. */
  lemma {:induction false} LastStartingAtOrBelowIsLast(v: real, t: seq<Interval>, n: nat)
    requires n <= |t|
    ensures var r := LastStartingAtOrBelow(v, t, n);
      && (r.Some? ==> forall j :: r.value < j < n ==> v < t[j].low)
      && (r.None? <==> forall j :: 0 <= j < n ==> v < t[j].low)
  {
    if n > 0 && v < t[n - 1].low {
      LastStartingAtOrBelowIsLast(v, t, n - 1);
    }
  }

  /** `score_component(value, scoring_table)`: the points of the first row
      with `low <= value < high`; failing that, the points of the last row
      with `low <= value`; failing that, 0. */
  function ScoreComponent(v: real, t: seq<Interval>): int {
    match FirstMatch(v, t, 0)
    case Some(i) => t[i].points
    case None =>
      match LastStartingAtOrBelow(v, t, |t|)
      case Some(i) => t[i].points
      case None => 0
  }

  /** Row `a` ends at or before row `b` begins, and awards no more points. */
  predicate Precedes(a: Interval, b: Interval) {
    a.low < b.low && a.high.Fin? && a.high.value <= b.low && a.points <= b.points
  }

  /** Contiguity from row `k` orders all later rows pairwise. */
  lemma {:induction false} ContiguousOrdered(t: seq<Interval>, k: nat)
    requires k < |t| && ContiguousFrom(t, k)
    decreases |t| - k
    ensures forall i, j :: k <= i < j < |t| ==> Precedes(t[i], t[j])
  {
    if k < |t| - 1 {
      ContiguousOrdered(t, k + 1);
    }
  }

  /** Contiguity from row `k` covers every value at or above row `k`'s lower
      bound: the forward loop finds a row. */
  lemma {:induction false} ContiguousCovers(v: real, t: seq<Interval>, k: nat)
    requires k < |t| && ContiguousFrom(t, k) && t[k].low <= v
    decreases |t| - k
    ensures FirstMatch(v, t, k).Some?
  {
    if !InInterval(v, t[k]) {
      ContiguousCovers(v, t, k + 1);
    }
  }

  /** In a well-formed table two rows never hold the same value. */
  lemma IntervalsDisjoint(v: real, t: seq<Interval>, i: nat, j: nat)
    requires WellFormed(t) && i < |t| && j < |t|
    requires InInterval(v, t[i]) && InInterval(v, t[j])
    ensures i == j
  {
    ContiguousOrdered(t, 0);
  }

  /** In a well-formed table the score is the points of the row that holds
      the value. */
  lemma ScoreIsPointsOfRow(v: real, t: seq<Interval>, i: nat)
    requires WellFormed(t) && i < |t| && InInterval(v, t[i])
    ensures ScoreComponent(v, t) == t[i].points
  {
    FirstMatchIsFirst(v, t, 0);
    var m := FirstMatch(v, t, 0).value;
    IntervalsDisjoint(v, t, m, i);
  }

  /** A value >= 0 lies in exactly one row of a well-formed table, the
      forward loop finds it (so the reversed loop is never reached), and the
      score is that row's points. */
  lemma ExactlyOneRow(v: real, t: seq<Interval>)
    requires WellFormed(t) && v >= 0.0
    ensures FirstMatch(v, t, 0).Some?
    ensures exists i :: 0 <= i < |t| && InInterval(v, t[i]) && ScoreComponent(v, t) == t[i].points
    ensures forall i, j :: 0 <= i < |t| && 0 <= j < |t| && InInterval(v, t[i]) && InInterval(v, t[j]) ==> i == j
  {
    ContiguousCovers(v, t, 0);
    var i := FirstMatch(v, t, 0).value;
    ScoreIsPointsOfRow(v, t, i);
    forall i, j | 0 <= i < |t| && 0 <= j < |t| && InInterval(v, t[i]) && InInterval(v, t[j])
      ensures i == j
    {
      IntervalsDisjoint(v, t, i, j);
    }
  }

  /** A negative value lies in no row, fails the reversed scan too, and
      scores 0. */
  lemma NegativeScoresZero(v: real, t: seq<Interval>)
    requires WellFormed(t) && v < 0.0
    ensures forall i :: 0 <= i < |t| ==> !InInterval(v, t[i])
    ensures FirstMatch(v, t, 0).None? && LastStartingAtOrBelow(v, t, |t|).None?
    ensures ScoreComponent(v, t) == 0
  {
    ContiguousOrdered(t, 0);
    FirstMatchIsFirst(v, t, 0);
    LastStartingAtOrBelowIsLast(v, t, |t|);
    assert forall i :: 0 <= i < |t| ==> v < t[i].low by {
      forall i | 0 <= i < |t| ensures v < t[i].low {
        if i > 0 {
          assert Precedes(t[0], t[i]);
        }
      }
    }
  }

  /** The score of a well-formed table lies between 0 and its top points. */
  lemma ScoreBounds(v: real, t: seq<Interval>)
    requires WellFormed(t)
    ensures 0 <= ScoreComponent(v, t) <= Top(t)
  {
    ContiguousOrdered(t, 0);
    if v < 0.0 {
      NegativeScoresZero(v, t);
    } else {
      ExactlyOneRow(v, t);
    }
  }

  /** The score of a well-formed table never decreases as the value grows. */
  lemma ScoreMonotone(v1: real, v2: real, t: seq<Interval>)
    requires WellFormed(t) && v1 <= v2
    ensures ScoreComponent(v1, t) <= ScoreComponent(v2, t)
  {
    ScoreBounds(v2, t);
    if v1 >= 0.0 {
      ContiguousCovers(v1, t, 0);
      ContiguousCovers(v2, t, 0);
      var i1 := FirstMatch(v1, t, 0).value;
      var i2 := FirstMatch(v2, t, 0).value;
      ContiguousOrdered(t, 0);
      assert i1 <= i2;
    } else {
      NegativeScoresZero(v1, t);
    }
  }

  // Per-nutrient getters (nutriscore_app.py:109-131).

  function EnergyPoints(energy: real, c: Category): (r: int)
    ensures 0 <= r <= 10
  {
    AllTablesWellFormed(c);
    ScoreBounds(energy, EnergyTable(c));
    ScoreComponent(energy, EnergyTable(c))
  }

  function SugarPoints(sugar: real, c: Category): (r: int)
    ensures 0 <= r <= (if c == Drink then 10 else 15)
  {
    AllTablesWellFormed(c);
    ScoreBounds(sugar, SugarTable(c));
    ScoreComponent(sugar, SugarTable(c))
  }

  function SaturatesPoints(saturates: real, c: Category): (r: int)
    ensures 0 <= r <= 10
  {
    AllTablesWellFormed(c);
    ScoreBounds(saturates, SaturatesTable(c));
    ScoreComponent(saturates, SaturatesTable(c))
  }

  function SaltPoints(salt: real, c: Category): (r: int)
    ensures 0 <= r <= 20
  {
    AllTablesWellFormed(c);
    ScoreBounds(salt, SaltTable(c));
    ScoreComponent(salt, SaltTable(c))
  }

  function FruitPoints(percent: real, c: Category): (r: int)
    ensures 0 <= r <= (if c == Drink then 6 else 5)
  {
    AllTablesWellFormed(c);
    ScoreBounds(percent, FruitTable(c));
    ScoreComponent(percent, FruitTable(c))
  }

  function FibrePoints(fibre: real, c: Category): (r: int)
    ensures 0 <= r <= 5
  {
    AllTablesWellFormed(c);
    ScoreBounds(fibre, FibreTable(c));
    ScoreComponent(fibre, FibreTable(c))
  }

  /** `get_protein_points`: the table lookup, capped at 2 for red meat in the
      general category. */
  function ProteinPoints(protein: real, c: Category, isRedMeat: bool): (r: int)
    ensures 0 <= r <= (if c == Drink then 7 else if c == General && isRedMeat then 2 else 8)
  {
    AllTablesWellFormed(c);
    ScoreBounds(protein, ProteinTable(c));
    var points := ScoreComponent(protein, ProteinTable(c));
    if c == General && isRedMeat then (if points < 2 then points else 2) else points
  }

  /** The red-meat cap only ever lowers the lookup, to at most 2, and only for
      general food with the red-meat flag; elsewhere the flag is ignored. */
  lemma RedMeatCap(protein: real, c: Category, isRedMeat: bool)
    ensures var lookup := ProteinPoints(protein, c, false);
      && lookup == ScoreComponent(protein, ProteinTable(c))
      && (c == General && isRedMeat ==>
            ProteinPoints(protein, c, isRedMeat) <= 2
            && ProteinPoints(protein, c, isRedMeat) <= lookup
            && (ProteinPoints(protein, c, isRedMeat) == lookup || ProteinPoints(protein, c, isRedMeat) == 2))
      && (c != General || !isRedMeat ==> ProteinPoints(protein, c, isRedMeat) == lookup)
  {
  }

  // Each getter is monotone in its nutrient value: more of a nutrient never
  // earns fewer points.

  lemma EnergyMonotone(c: Category, v1: real, v2: real)
    requires v1 <= v2
    ensures EnergyPoints(v1, c) <= EnergyPoints(v2, c)
  {
    AllTablesWellFormed(c);
    ScoreMonotone(v1, v2, EnergyTable(c));
  }

  lemma SugarMonotone(c: Category, v1: real, v2: real)
    requires v1 <= v2
    ensures SugarPoints(v1, c) <= SugarPoints(v2, c)
  {
    AllTablesWellFormed(c);
    ScoreMonotone(v1, v2, SugarTable(c));
  }

  lemma SaturatesMonotone(c: Category, v1: real, v2: real)
    requires v1 <= v2
    ensures SaturatesPoints(v1, c) <= SaturatesPoints(v2, c)
  {
    AllTablesWellFormed(c);
    ScoreMonotone(v1, v2, SaturatesTable(c));
  }

  lemma SaltMonotone(c: Category, v1: real, v2: real)
    requires v1 <= v2
    ensures SaltPoints(v1, c) <= SaltPoints(v2, c)
  {
    AllTablesWellFormed(c);
    ScoreMonotone(v1, v2, SaltTable(c));
  }

  lemma FruitMonotone(c: Category, v1: real, v2: real)
    requires v1 <= v2
    ensures FruitPoints(v1, c) <= FruitPoints(v2, c)
  {
    AllTablesWellFormed(c);
    ScoreMonotone(v1, v2, FruitTable(c));
  }

  lemma FibreMonotone(c: Category, v1: real, v2: real)
    requires v1 <= v2
    ensures FibrePoints(v1, c) <= FibrePoints(v2, c)
  {
    AllTablesWellFormed(c);
    ScoreMonotone(v1, v2, FibreTable(c));
  }

  lemma ProteinMonotone(c: Category, v1: real, v2: real, isRedMeat: bool)
    requires v1 <= v2
    ensures ProteinPoints(v1, c, isRedMeat) <= ProteinPoints(v2, c, isRedMeat)
  {
    AllTablesWellFormed(c);
    ScoreMonotone(v1, v2, ProteinTable(c));
  }

  /** Boundary cases of the left-closed, right-open convention: a value equal
      to a row's upper bound scores the next row's points. */
  lemma EnergyBoundaryCases()
    ensures EnergyPoints(334.9, General) == 0
    ensures EnergyPoints(335.0, General) == 1
    ensures EnergyPoints(336.0, General) == 1
  {
    AllTablesWellFormed(General);
    ScoreIsPointsOfRow(334.9, EnergyGeneral, 0);
    ScoreIsPointsOfRow(335.0, EnergyGeneral, 1);
    ScoreIsPointsOfRow(336.0, EnergyGeneral, 1);
  }

  lemma SugarBoundaryCases()
    ensures SugarPoints(3.39, General) == 0
    ensures SugarPoints(3.4, General) == 1
    ensures SugarPoints(3.5, General) == 1
  {
    AllTablesWellFormed(General);
    ScoreIsPointsOfRow(3.39, SugarGeneral, 0);
    ScoreIsPointsOfRow(3.4, SugarGeneral, 1);
    ScoreIsPointsOfRow(3.5, SugarGeneral, 1);
  }

  /** The last salt row is open-ended: 4 g of salt reaches the top 20. */
  lemma SaltTopCase()
    ensures SaltPoints(4.0, Drink) == 20
  {
    AllTablesWellFormed(Drink);
    ScoreIsPointsOfRow(4.0, SaltAll, 20);
  }

  /** General food flagged red meat with 20 g protein: the table gives 8
      points, the cap leaves 2. */
  lemma RedMeatExample()
    ensures ProteinPoints(20.0, General, false) == 8
    ensures ProteinPoints(20.0, General, true) == 2
  {
    AllTablesWellFormed(General);
    ScoreIsPointsOfRow(20.0, ProteinGeneral, 8);
  }
}
