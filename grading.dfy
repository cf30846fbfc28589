/** Grade classifier: the grade bands CATEGORY_THRESHOLDS
    (nutriscore_app.py:7-11) and the band scan at the end of
    `calculate_nutri_score` (nutriscore_app.py:190-195).

    A band is closed on both sides, `low <= score <= high`, and the first
    band is open to -infinity, the last to +infinity.
 */
module Grading {
  import opened Tables

  datatype Grade = A | B | C | D | E

  /** Position of a grade from best (A) to worst (E). */
  function Rank(g: Grade): nat {
    match g
    case A => 0
    case B => 1
    case C => 2
    case D => 3
    case E => 4
  }

  datatype Lower = NegInf | AtLeast(n: int)
  datatype Upper = AtMost(n: int) | PosInf
  datatype Band = Band(low: Lower, high: Upper, grade: Grade)

  /** The band test of the classifier: `low <= score <= high`. */
  predicate InBand(s: int, b: Band) {
    (b.low.NegInf? || b.low.n <= s) && (b.high.PosInf? || s <= b.high.n)
  }

  /** From band `k` on, each band is non-empty, the next band starts one past
      its upper end, grades strictly worsen, and the last band is open to
      +infinity. */
  predicate TilesFrom(bands: seq<Band>, k: nat)
    requires k < |bands|
    decreases |bands| - k
  {
    && (bands[k].low.AtLeast? && bands[k].high.AtMost? ==> bands[k].low.n <= bands[k].high.n)
    && if k == |bands| - 1 then bands[k].high == PosInf
       else
         && bands[k].high.AtMost?
         && bands[k + 1].low == AtLeast(bands[k].high.n + 1)
         && Rank(bands[k].grade) < Rank(bands[k + 1].grade)
         && TilesFrom(bands, k + 1)
  }

  /** Bands that tile all of the integers, from -infinity to +infinity. */
  predicate BandsWellFormed(bands: seq<Band>) {
    |bands| > 0 && bands[0].low == NegInf && TilesFrom(bands, 0)
  }

  /** "general": <=0 A, 1..2 B, 3..10 C, 11..18 D, >=19 E (nutriscore_app.py:8). */
  const GeneralBands: seq<Band> := [
    Band(NegInf, AtMost(0), A), Band(AtLeast(1), AtMost(2), B), Band(AtLeast(3), AtMost(10), C),
    Band(AtLeast(11), AtMost(18), D), Band(AtLeast(19), PosInf, E)
  ]

  /** "drink": <=0 A, 1..2 B, 3..6 C, 7..9 D, >=10 E (nutriscore_app.py:9). */
  const DrinkBands: seq<Band> := [
    Band(NegInf, AtMost(0), A), Band(AtLeast(1), AtMost(2), B), Band(AtLeast(3), AtMost(6), C),
    Band(AtLeast(7), AtMost(9), D), Band(AtLeast(10), PosInf, E)
  ]

  /** "fat": <=-6 A, -5..2 B, 3..10 C, 11..18 D, >=19 E (nutriscore_app.py:10). */
  const FatBands: seq<Band> := [
    Band(NegInf, AtMost(-6), A), Band(AtLeast(-5), AtMost(2), B), Band(AtLeast(3), AtMost(10), C),
    Band(AtLeast(11), AtMost(18), D), Band(AtLeast(19), PosInf, E)
  ]

  function GradeBands(c: Category): seq<Band> {
    match c
    case General => GeneralBands
    case Drink => DrinkBands
    case Fat => FatBands
  }

  /** The band scan from band `k` on: the index of the first band holding `s`. */
  function FirstBand(s: int, bands: seq<Band>, k: nat): (r: Option<nat>)
    requires k <= |bands|
    decreases |bands| - k
    ensures r.Some? ==> k <= r.value < |bands| && InBand(s, bands[r.value])
  {
    if k == |bands| then None
    else if InBand(s, bands[k]) then Some(k)
    else FirstBand(s, bands, k + 1)
  }

  /** The band scan returns the first band holding `s`, and nothing exactly
      when no band from `k` on holds it. */
  lemma {:induction false} FirstBandIsFirst(s: int, bands: seq<Band>, k: nat)
    requires k <= |bands|
    decreases |bands| - k
    ensures var r := FirstBand(s, bands, k);
      && (r.Some? ==> forall j :: k <= j < r.value ==> !InBand(s, bands[j]))
      && (r.None? <==> forall j :: k <= j < |bands| ==> !InBand(s, bands[j]))
  {
    if k < |bands| && !InBand(s, bands[k]) {
      FirstBandIsFirst(s, bands, k + 1);
    }
  }

  /** The grade of the first band holding `s`, or the fallback "E". */
  function Classify(s: int, bands: seq<Band>): Grade {
    match FirstBand(s, bands, 0)
    case Some(i) => bands[i].grade
    case None => E
  }

  /** The grade a final score gets in a category. */
  function GradeFor(s: int, c: Category): Grade {
    Classify(s, GradeBands(c))
  }

  /** The bands of every category tile the integers. */
  lemma AllBandsWellFormed(c: Category)
    ensures BandsWellFormed(GradeBands(c))
  {
  }

  /** Band `b1` lies wholly below band `b2` and has a strictly better grade. */
  predicate Below(b1: Band, b2: Band) {
    && b1.high.AtMost? && b2.low.AtLeast? && b1.high.n < b2.low.n
    && Rank(b1.grade) < Rank(b2.grade)
  }

  /** Tiling from band `k` orders all later bands. */
  lemma {:induction false} TilesOrdered(bands: seq<Band>, k: nat)
    requires k < |bands| && TilesFrom(bands, k)
    decreases |bands| - k
    ensures forall i, j :: k <= i < j < |bands| ==> Below(bands[i], bands[j])
  {
    if k < |bands| - 1 {
      assert TilesFrom(bands, k + 1);
      TilesOrdered(bands, k + 1);
      forall j | k + 1 < j < |bands|
        ensures Below(bands[k], bands[j])
      {
        assert Below(bands[k + 1], bands[j]);
        assert bands[k + 1].low.n <= bands[k + 1].high.n;
      }
    }
  }

  /** Tiling from band `k` covers every score at or above band `k`'s lower
      end: the scan finds a band. */
  lemma {:induction false} TilesCover(s: int, bands: seq<Band>, k: nat)
    requires k < |bands| && TilesFrom(bands, k)
    requires bands[k].low.NegInf? || bands[k].low.n <= s
    decreases |bands| - k
    ensures FirstBand(s, bands, k).Some?
  {
    if !InBand(s, bands[k]) {
      TilesCover(s, bands, k + 1);
    }
  }

  /** Every integer score lies in exactly one band of well-formed bands, so
      the scan always finds it and the "E" fallback is never taken. */
  lemma ExactlyOneBand(s: int, bands: seq<Band>)
    requires BandsWellFormed(bands)
    ensures FirstBand(s, bands, 0).Some?
    ensures forall i, j :: 0 <= i < |bands| && 0 <= j < |bands| && InBand(s, bands[i]) && InBand(s, bands[j]) ==> i == j
  {
    TilesCover(s, bands, 0);
    TilesOrdered(bands, 0);
  }

  /** The classifier returns the grade of the band holding the score. */
  lemma ClassifyIsGradeOfBand(s: int, bands: seq<Band>, i: nat)
    requires BandsWellFormed(bands) && i < |bands| && InBand(s, bands[i])
    ensures Classify(s, bands) == bands[i].grade
  {
    ExactlyOneBand(s, bands);
  }

  /** A higher score never gets a better grade. */
  lemma ClassifyMonotone(s1: int, s2: int, bands: seq<Band>)
    requires BandsWellFormed(bands) && s1 <= s2
    ensures Rank(Classify(s1, bands)) <= Rank(Classify(s2, bands))
  {
    ExactlyOneBand(s1, bands);
    ExactlyOneBand(s2, bands);
    TilesOrdered(bands, 0);
    var i1 := FirstBand(s1, bands, 0).value;
    var i2 := FirstBand(s2, bands, 0).value;
    assert i1 <= i2;
  }

  /** In every category the fallback grade is unreachable and grades are
      monotone in the score. */
  lemma GradeBandsTile(s1: int, s2: int, c: Category)
    requires s1 <= s2
    ensures FirstBand(s1, GradeBands(c), 0).Some?
    ensures Rank(GradeFor(s1, c)) <= Rank(GradeFor(s2, c))
  {
    AllBandsWellFormed(c);
    ExactlyOneBand(s1, GradeBands(c));
    ClassifyMonotone(s1, s2, GradeBands(c));
  }

  /** The grade of each category as explicit score ranges. */
  lemma GradeRanges(s: int, c: Category)
    ensures c == General ==>
      GradeFor(s, c) == (if s <= 0 then A else if s <= 2 then B else if s <= 10 then C else if s <= 18 then D else E)
    ensures c == Drink ==>
      GradeFor(s, c) == (if s <= 0 then A else if s <= 2 then B else if s <= 6 then C else if s <= 9 then D else E)
    ensures c == Fat ==>
      GradeFor(s, c) == (if s <= -6 then A else if s <= 2 then B else if s <= 10 then C else if s <= 18 then D else E)
  {
    AllBandsWellFormed(c);
    var bands := GradeBands(c);
    var i :| 0 <= i < |bands| && InBand(s, bands[i]) by {
      ExactlyOneBand(s, bands);
    }
    ClassifyIsGradeOfBand(s, bands, i);
  }
}
