/** The balance statistics panel: counts, radar rows, the internal and
    external labels and their percentage scores (src/components/SwotStats.tsx). */
module SwotStats {
  import opened Supabase
  import opened Categories

  function Min(a: int, b: int): int { if a < b then a else b }
  function Max(a: int, b: int): int { if a < b then b else a }

  /** "Puissance Interne": strengths against weaknesses. */
  function InternalLabel(k: Counts): (r: string)
    ensures r == "Dominant" <==> k.strength > k.weakness
    ensures r == "Équilibré" <==> k.strength == k.weakness
    ensures r == "Fragile" <==> k.strength < k.weakness
  {
    if k.strength > k.weakness then "Dominant" else if k.strength == k.weakness then "Équilibré" else "Fragile"
  }

  /** "Potentiel Externe": opportunities against threats. */
  function ExternalLabel(k: Counts): (r: string)
    ensures r == "Elevé" <==> k.opportunity > k.threat
    ensures r == "Modéré" <==> k.opportunity == k.threat
    ensures r == "Risqué" <==> k.opportunity < k.threat
  {
    if k.opportunity > k.threat then "Elevé" else if k.opportunity == k.threat then "Modéré" else "Risqué"
  }

  /** `Math.max(0, Math.min(100, Math.round((a / (a + b || 1)) * 100)))` in
      integer arithmetic: `Math.round` rounds halves up, so the rounded
      percentage is the floor of (200a + d) / 2d for the denominator d. */
  function Score(a: nat, b: nat): (r: int)
    ensures 0 <= r <= 100
    ensures a + b == 0 ==> r == 0
    ensures a + b > 0 ==> 2 * (a + b) * r <= 200 * a + (a + b) < 2 * (a + b) * (r + 1)
  {
    var denominator := if a + b == 0 then 1 else a + b;
    var rounded := (200 * a + denominator) / (2 * denominator);
    RoundedPercentBounds(a, denominator);
    Max(0, Min(100, rounded))
  }

  /** Multiplying both sides of an inequality by a natural number. */
  lemma MulLe(x: int, y: int, z: nat)
    requires x <= y
    ensures z * x <= z * y
  {
  }

  lemma RoundedPercentBounds(a: nat, d: nat)
    requires d > 0 && a <= d
    ensures var q := (200 * a + d) / (2 * d);
      && 0 <= q <= 100
      && 2 * d * q <= 200 * a + d < 2 * d * (q + 1)
  {
    var n, m := 200 * a + d, 2 * d;
    var q := n / m;
    assert m * q <= n < m * q + m;
    assert m * (q + 1) == m * q + m;
    if q > 100 {
      MulLe(101, q, m);
      assert false;
    }
  }

  /** A product of a non-negative and a positive real. */
  lemma NonNegativeProduct(y: real, d: real)
    requires y >= 0.0 && d > 0.0
    ensures y * d >= 0.0 && (y > 0.0 ==> y * d > 0.0)
  {
  }

  /** Bracketing 2dR <= 200A + d < 2d(R + 1) means R is 100A/d rounded halves up. */
  lemma HalfBracket(r: real, a: real, d: real)
    requires d > 0.0
    requires 2.0 * d * r <= 200.0 * a + d < 2.0 * d * (r + 1.0)
    ensures r - 0.5 <= 100.0 * a / d < r + 0.5
  {
    var x := 100.0 * a / d;
    assert x * d == 100.0 * a;
    var below, above := r - 0.5 - x, x - r - 0.5;
    assert below * d == r * d - 0.5 * d - x * d;
    assert above * d == x * d - r * d - 0.5 * d;
    assert 2.0 * d * r == 2.0 * (r * d);
    assert 2.0 * d * (r + 1.0) == 2.0 * (r * d) + 2.0 * d;
    if below > 0.0 {
      NonNegativeProduct(below, d);
      assert false;
    }
    if above >= 0.0 {
      NonNegativeProduct(above, d);
      assert false;
    }
  }

  /** The score is 100·a/(a+b) rounded to the nearest integer, halves up. */
  lemma ScoreIsRoundedPercentage(a: nat, b: nat)
    requires a + b > 0
    ensures var r := Score(a, b) as real;
      r - 0.5 <= 100.0 * (a as real) / ((a + b) as real) < r + 0.5
  {
    var r, d := Score(a, b), a + b;
    assert (2 * d * r) as real == 2.0 * (d as real) * (r as real);
    assert (2 * d * (r + 1)) as real == 2.0 * (d as real) * ((r as real) + 1.0);
    HalfBracket(r as real, a as real, d as real);
  }

  /** The label and the score tell the same story. */
  lemma LabelAgreesWithScore(a: nat, b: nat)
    ensures a > b ==> Score(a, b) >= 50
    ensures a == b && a > 0 ==> Score(a, b) == 50
    ensures a < b ==> Score(a, b) <= 50
  {
    var r, d := Score(a, b), a + b;
    if d > 0 {
      assert 2 * d * r <= 200 * a + d < 2 * d * (r + 1);
      if a >= b && r < 50 {
        MulLe(r + 1, 50, 2 * d);
        assert false;
      }
      if a <= b && r > 50 {
        MulLe(51, r, 2 * d);
        assert false;
      }
    }
  }

  /** The two sides of a balance share the 100 points, give or take the one
      point a tie at exactly one half adds to both. */
  lemma SwappedScoresSum(a: nat, b: nat)
    requires a + b > 0
    ensures Score(a, b) + Score(b, a) == 100 || Score(a, b) + Score(b, a) == 101
  {
    var r, s, d := Score(a, b), Score(b, a), a + b;
    assert 2 * d * r <= 200 * a + d < 2 * d * (r + 1);
    assert 2 * d * s <= 200 * b + d < 2 * d * (s + 1);
    assert 2 * d * (r + s) == 2 * d * r + 2 * d * s;
    assert 2 * d * (r + s + 2) == 2 * d * (r + 1) + 2 * d * (s + 1);
    if r + s > 101 {
      MulLe(102, r + s, 2 * d);
      assert false;
    }
    if r + s < 100 {
      MulLe(r + s + 2, 101, 2 * d);
      assert false;
    }
  }

  /** One row of the radar chart. */
  datatype RadarRow = RadarRow(subject: string, value: nat, fullMark: nat)

  /** `data`: the rows in the order Forces, Opportunités, Menaces, Faiblesses,
      each scaled against the total. */
  function RadarData(k: Counts): (r: seq<RadarRow>)
    ensures |r| == 4
    ensures r[0].subject == "Forces" && r[1].subject == "Opportunités"
    ensures r[2].subject == "Menaces" && r[3].subject == "Faiblesses"
    ensures forall i :: 0 <= i < 4 ==> r[i].fullMark == Total(k) && r[i].value <= r[i].fullMark
    ensures r[0].value == k.strength && r[1].value == k.opportunity
    ensures r[2].value == k.threat && r[3].value == k.weakness
    ensures r[0].value + r[1].value + r[2].value + r[3].value == Total(k)
  {
    var total := Total(k);
    [RadarRow("Forces", k.strength, total), RadarRow("Opportunités", k.opportunity, total),
     RadarRow("Menaces", k.threat, total), RadarRow("Faiblesses", k.weakness, total)]
  }

  /** Everything the panel shows for a list of items. */
  datatype StatsPanel = StatsPanel(
    stats: Counts, total: nat, data: seq<RadarRow>,
    internalLabel: string, internalScore: int, externalLabel: string, externalScore: int)

  function Panel(items: seq<ItemRow>): (r: StatsPanel)
    ensures r.stats == Tally(items) && r.total == |items|
    ensures forall i :: 0 <= i < |r.data| ==> r.data[i].fullMark == |items|
    ensures r.data == RadarData(r.stats)
    ensures r.internalLabel == InternalLabel(r.stats) && r.internalScore == Score(r.stats.strength, r.stats.weakness)
    ensures r.externalLabel == ExternalLabel(r.stats) && r.externalScore == Score(r.stats.opportunity, r.stats.threat)
    ensures 0 <= r.internalScore <= 100 && 0 <= r.externalScore <= 100
  {
    var stats := Tally(items);
    TallyTotal(items);
    StatsPanel(stats, Total(stats), RadarData(stats),
               InternalLabel(stats), Score(stats.strength, stats.weakness),
               ExternalLabel(stats), Score(stats.opportunity, stats.threat))
  }
}
