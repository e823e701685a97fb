/** The strategic recommendations derived from the four category counts
    (src/components/AiInsights.tsx). */
module AiInsights {
  import opened Supabase
  import opened Categories

  /** The `type` of a recommendation; each rule of the table has its own. */
  datatype InsightType = Growth | Warning | Defense | Efficiency

  function Title(t: InsightType): string
  {
    match t
    case Growth => "Stratégie Offensive"
    case Warning => "Focus Interne Requis"
    case Defense => "Posture Défensive"
    case Efficiency => "Priorisation Nécessaire"
  }

  function Description(t: InsightType): string
  {
    match t
    case Growth =>
      "Utilisez vos forces dominantes pour saisir les opportunités majeures. Le moment est idéal pour l'expansion."
    case Warning =>
      "Vos faiblesses surpassent vos forces. Priorisez la consolidation interne et la formation avant toute nouvelle initiative."
    case Defense =>
      "L'environnement externe est risqué. Renforcez vos barrières à l'entrée et diversifiez pour minimiser les impacts."
    case Efficiency =>
      "Analyse dense. Identifiez les 3 points critiques par quadrant pour éviter la paralysie par l'analyse."
  }

  /** The place of a recommendation's rule in the rule table. */
  function Rank(t: InsightType): nat
  {
    match t
    case Growth => 0
    case Warning => 1
    case Defense => 2
    case Efficiency => 3
  }

  /** Each recommendation comes after those of earlier rules. */
  ghost predicate InRuleOrder(recs: seq<InsightType>)
  {
    forall i, j :: 0 <= i < j < |recs| ==> Rank(recs[i]) < Rank(recs[j])
  }

  /** In rule order, the recommendation at position i comes from rule i or later. */
  lemma {:induction false} RankAtLeastPosition(recs: seq<InsightType>, i: nat)
    requires InRuleOrder(recs) && i < |recs|
    ensures Rank(recs[i]) >= i
  {
    if i > 0 {
      RankAtLeastPosition(recs, i - 1);
    }
  }

  /** A list in rule order holds no recommendation twice, so at most four. */
  lemma RuleOrderBounds(recs: seq<InsightType>)
    requires InRuleOrder(recs)
    ensures |recs| <= 4
    ensures forall i, j :: 0 <= i < j < |recs| ==> recs[i] != recs[j]
  {
    if |recs| > 4 {
      RankAtLeastPosition(recs, 4);
      assert false;
    }
  }

  /** Pushing a recommendation of a later rule keeps the list in rule order. */
  lemma PushKeepsRuleOrder(recs: seq<InsightType>, t: InsightType)
    requires InRuleOrder(recs)
    requires forall i :: 0 <= i < |recs| ==> Rank(recs[i]) < Rank(t)
    ensures InRuleOrder(recs + [t])
  {
  }

  /** Every recommendation in the list comes from a rule before rule `k`. */
  ghost predicate RanksBelow(recs: seq<InsightType>, k: nat)
  {
    forall i :: 0 <= i < |recs| ==> Rank(recs[i]) < k
  }

  /** One conditional push of `Insights`: the list stays in rule order, holds
      exactly the old entries and the new one, and now ranks below the next rule. */
  lemma PushStep(recs: seq<InsightType>, t: InsightType)
    requires InRuleOrder(recs) && RanksBelow(recs, Rank(t))
    ensures InRuleOrder(recs + [t]) && RanksBelow(recs + [t], Rank(t) + 1)
    ensures forall u :: u in recs + [t] <==> u in recs || u == t
  {
    PushKeepsRuleOrder(recs, t);
  }

  /** The `useMemo` body: the counts, then one conditional push per rule of
      the table, in table order. A recommendation is identified by its type;
      its title and text are `Title` and `Description` of that type. */
  method Insights(items: seq<ItemRow>) returns (recs: seq<InsightType>)
    ensures Growth in recs <==>
      CountOf(items, Strength) > CountOf(items, Weakness) && CountOf(items, Opportunity) > CountOf(items, Threat)
    ensures Warning in recs <==> CountOf(items, Weakness) > CountOf(items, Strength)
    ensures Defense in recs <==> CountOf(items, Threat) > CountOf(items, Opportunity)
    ensures Efficiency in recs <==> |items| > 8
    ensures InRuleOrder(recs) && |recs| <= 4
    ensures Growth in recs ==> Warning !in recs && Defense !in recs
  {
    var counts := Tally(items);
    var growth := counts.strength > counts.weakness && counts.opportunity > counts.threat;
    var warning := counts.weakness > counts.strength;
    var defense := counts.threat > counts.opportunity;
    var efficiency := |items| > 8;
    recs := [];
    if growth {
      PushStep(recs, Growth);
      recs := recs + [Growth];
    }
    assert Growth in recs <==> growth;
    if warning {
      PushStep(recs, Warning);
      recs := recs + [Warning];
    }
    assert Growth in recs <==> growth;
    assert Warning in recs <==> warning;
    if defense {
      PushStep(recs, Defense);
      recs := recs + [Defense];
    }
    assert Growth in recs <==> growth;
    assert Warning in recs <==> warning;
    assert Defense in recs <==> defense;
    if efficiency {
      PushStep(recs, Efficiency);
      recs := recs + [Efficiency];
    }
    RuleOrderBounds(recs);
  }

  /** What the component renders: nothing for an empty list, otherwise the
      recommendations and, when there are none, the "add more items" hint. */
  datatype Panel = Hidden | Shown(insights: seq<InsightType>, showsHint: bool)

  method Render(items: seq<ItemRow>) returns (panel: Panel)
    ensures panel.Hidden? <==> items == []
    ensures panel.Shown? ==> (panel.showsHint <==> panel.insights == [])
    ensures panel.Shown? && |items| > 8 ==> Efficiency in panel.insights && !panel.showsHint
    ensures panel.Shown? ==>
      && (Growth in panel.insights <==>
           CountOf(items, Strength) > CountOf(items, Weakness) && CountOf(items, Opportunity) > CountOf(items, Threat))
      && (Warning in panel.insights <==> CountOf(items, Weakness) > CountOf(items, Strength))
      && (Defense in panel.insights <==> CountOf(items, Threat) > CountOf(items, Opportunity))
      && (Efficiency in panel.insights <==> |items| > 8)
      && InRuleOrder(panel.insights)
    ensures panel.Shown? ==>
      (panel.showsHint <==>
        && CountOf(items, Weakness) <= CountOf(items, Strength)
        && CountOf(items, Threat) <= CountOf(items, Opportunity)
        && (CountOf(items, Strength) <= CountOf(items, Weakness) || CountOf(items, Opportunity) <= CountOf(items, Threat))
        && |items| <= 8)
  {
    var insights := Insights(items);
    if |items| == 0 {
      return Hidden;
    }
    if insights != [] {
      var first := insights[0];
      assert first in insights;
      assert first == Growth || first == Warning || first == Defense || first == Efficiency;
    }
    panel := Shown(insights, |insights| == 0);
  }
}
