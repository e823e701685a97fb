/** The example analysis that `loadExample` creates (src/App.tsx): its
    title and description, its twelve items and four strategies, and the
    insert requests built from them. The tables are indexed functions, one
    entry per position, so that a proof only meets the entries it asks for. */
module ExampleData {
  import opened Supabase

  function Title(): string
  {
    "Tesla Inc. - 2024"
  }

  function Description(): string
  {
    "Analyse stratégique de Tesla : Leader des véhicules électriques et énergies renouvelables."
  }

  /** The example analysis `loadExample` inserts for user `userId`. */
  function AnalysisInsertFor(userId: string): (r: AnalysisInsert)
    ensures r.userId == userId && r.title == Title() && r.description == Some(Description())
    ensures r.id.None? && r.createdAt.None? && r.updatedAt.None?
  {
    AnalysisInsert(None, Title(), Some(Description()), None, None, userId)
  }

  /** Entry `i` of the twelve example items. */
  function Item(i: nat): (Category, string)
    requires i < 12
  {
    if i == 0 then (Strength, "Marque forte et visionnaire (Elon Musk)")
    else if i == 1 then (Strength, "Technologie de batterie et autonomie en avance")
    else if i == 2 then (Strength, "Réseau de Superchargers mondial")
    else if i == 3 then (Weakness, "Prix élevés des véhicules (premium)")
    else if i == 4 then (Weakness, "Contrôle qualité parfois inégal")
    else if i == 5 then (Weakness, "Gamme de produits limitée")
    else if i == 6 then (Opportunity, "Marché des camions électriques (Semi)")
    else if i == 7 then (Opportunity, "Développement de la conduite autonome (FSD)")
    else if i == 8 then (Opportunity, "Expansion sur les marchés émergents")
    else if i == 9 then (Threat, "Concurrence croissante (BYD, VW, etc.)")
    else if i == 10 then (Threat, "Pénuries de matières premières (Lithium)")
    else (Threat, "Régulations changeantes sur les VE")
  }

  /** Entry `i` of the four example strategies. */
  function Strategy(i: nat): (StrategyType, string)
    requires i < 4
  {
    if i == 0 then (SO, "Leverager la marque pour pénétrer le marché des camions")
    else if i == 1 then (WO, "Utiliser les revenus FSD pour améliorer le contrôle qualité")
    else if i == 2 then (ST, "Maintenir l'avance technologique face à la concurrence")
    else (WT, "Diversifier la supply chain pour sécuriser les ressources")
  }

  /** The category of the `block`-th group of three items. */
  function CategoryAt(block: nat): Category
  {
    if block == 0 then Strength else if block == 1 then Weakness else if block == 2 then Opportunity else Threat
  }

  /** The place of a category in the order strength, weakness, opportunity, threat. */
  function CategoryRank(c: Category): nat
  {
    match c
    case Strength => 0
    case Weakness => 1
    case Opportunity => 2
    case Threat => 3
  }

  /** `itemsToInsert`: each example item for analysis `analysisId`, with its
      place in the whole example list as order index. */
  function ItemInserts(analysisId: string): seq<ItemInsert>
  {
    seq(12, i requires 0 <= i < 12 => ItemInsertAt(analysisId, i))
  }

  function ItemInsertAt(analysisId: string, i: nat): ItemInsert
    requires i < 12
  {
    ItemInsert(None, analysisId, Item(i).0, Item(i).1, None, Some(i))
  }

  /** The example items are inserted for the new analysis, three per category
      in the order strength, weakness, opportunity, threat, each with its
      place in the whole list as order index. */
  lemma ItemInsertsListed(analysisId: string)
    ensures var r := ItemInserts(analysisId);
      && |r| == 12
      && forall i :: 0 <= i < 12 ==>
        && r[i].orderIndex == Some(i)
        && r[i].analysisId == analysisId
        && r[i].category == CategoryAt(i / 3)
        && r[i].content == Item(i).1
        && r[i].id.None? && r[i].createdAt.None?
  {
  }

  /** The example order indices are global, not per category: the weaknesses
      get 3, 4 and 5, where `addItem` would have numbered them 0, 1 and 2. */
  lemma IndicesAreGlobal(analysisId: string)
    ensures var r := ItemInserts(analysisId);
      forall i :: 0 <= i < 12 ==> r[i].orderIndex.value == 3 * CategoryRank(r[i].category) + i % 3
  {
    ItemInsertsListed(analysisId);
  }

  /** `strategiesToInsert` for analysis `analysisId`. */
  function StrategyInserts(analysisId: string): seq<StrategyInsert>
  {
    seq(4, i requires 0 <= i < 4 => StrategyInsertAt(analysisId, i))
  }

  function StrategyInsertAt(analysisId: string, i: nat): StrategyInsert
    requires i < 4
  {
    StrategyInsert(None, analysisId, Strategy(i).0, Strategy(i).1, None)
  }

  /** The example strategies are inserted for the new analysis, one per type
      in the order SO, WO, ST, WT. */
  lemma StrategyInsertsListed(analysisId: string)
    ensures var r := StrategyInserts(analysisId);
      && |r| == 4
      && forall i :: 0 <= i < 4 ==>
        && r[i].analysisId == analysisId
        && r[i].kind == [SO, WO, ST, WT][i]
        && r[i].description == Strategy(i).1
  {
  }
}
