/** The four strategy cards of the TOWS matrix and their add forms
    (src/components/SwotStrategies.tsx). */
module SwotStrategies {
  import opened Supabase
  import opened Strings
  import opened Categories

  /** `Object.keys(strategyTypes)`: the order in which the cards are laid out. */
  function CardOrder(): seq<StrategyType>
  {
    [SO, WO, ST, WT]
  }

  /** Every strategy type gets exactly one card. */
  lemma CardOrderListsEachTypeOnce()
    ensures |CardOrder()| == 4
    ensures forall t: StrategyType :: t in CardOrder()
    ensures forall i, j :: 0 <= i < j < |CardOrder()| ==> CardOrder()[i] != CardOrder()[j]
  {
    var r := CardOrder();
    forall t: StrategyType
      ensures t in r
    {
      if t == SO {
        assert r[0] == t;
      } else if t == WO {
        assert r[1] == t;
      } else if t == ST {
        assert r[2] == t;
      } else {
        assert r[3] == t;
      }
    }
  }

  /** `config.label`. */
  function Label(t: StrategyType): string
  {
    match t
    case SO => "Maxi-Maxi"
    case WO => "Mini-Maxi"
    case ST => "Maxi-Mini"
    case WT => "Mini-Mini"
  }

  /** `config.title`. */
  function Title(t: StrategyType): string
  {
    match t
    case SO => "Forces + Opportunités"
    case WO => "Faiblesses + Opportunités"
    case ST => "Forces + Menaces"
    case WT => "Faiblesses + Menaces"
  }

  /** The cards with the strategies `getStrategiesByType` hands each; every
      strategy is on exactly one card. */
  function Cards(strategies: seq<StrategyRow>): (r: seq<(StrategyType, seq<StrategyRow>)>)
    ensures |r| == 4
    ensures forall i :: 0 <= i < 4 ==> r[i].0 == CardOrder()[i] && r[i].1 == StrategiesOf(strategies, r[i].0)
    ensures |r[0].1| + |r[1].1| + |r[2].1| + |r[3].1| == |strategies|
  {
    StrategyTypesPartition(strategies);
    [(SO, StrategiesOf(strategies, SO)), (WO, StrategiesOf(strategies, WO)),
     (ST, StrategiesOf(strategies, ST)), (WT, StrategiesOf(strategies, WT))]
  }

  /** A card shows exactly the strategies of its type, in list order. */
  lemma CardShowsItsType(strategies: seq<StrategyRow>, i: nat)
    requires i < 4
    ensures forall x :: x in Cards(strategies)[i].1 <==> x in strategies && x.kind == CardOrder()[i]
    ensures forall x :: x in strategies ==> exists j :: 0 <= j < 4 && x in Cards(strategies)[j].1
  {
    var r := Cards(strategies);
    forall x | x in strategies
      ensures exists j :: 0 <= j < 4 && x in r[j].1
    {
      var j := match x.kind case SO => 0 case WO => 1 case ST => 2 case WT => 3;
      assert x in r[j].1;
    }
  }

  /** One strategy card's local state: the add form's draft and whether the
      form is open. */
  class StrategyCard {
    const kind: StrategyType
    var newStrategy: string
    var isAdding: bool

    constructor (kind: StrategyType)
      ensures this.kind == kind && newStrategy == "" && !isAdding
    {
      this.kind := kind;
      newStrategy := "";
      isAdding := false;
    }

    /** The "Ajouter une stratégie" button opens the form. */
    method StartAdding()
      modifies this
      ensures isAdding && newStrategy == old(newStrategy)
    {
      isAdding := true;
    }

    /** Typing in the text area. */
    method Edit(text: string)
      modifies this
      ensures newStrategy == text && isAdding == old(isAdding)
    {
      newStrategy := text;
    }

    /** `handleAdd`: a blank draft is ignored; otherwise the trimmed draft is
        handed to `onAddStrategy` for this card's type and the form is reset. */
    method HandleAdd() returns (submitted: Option<string>)
      modifies this
      ensures IsBlank(old(newStrategy)) ==>
        submitted == None && newStrategy == old(newStrategy) && isAdding == old(isAdding)
      ensures !IsBlank(old(newStrategy)) ==>
        submitted == Some(Trim(old(newStrategy))) && newStrategy == "" && !isAdding
      ensures submitted.Some? ==> !IsBlank(submitted.value) && Trim(submitted.value) == submitted.value
    {
      submitted := None;
      if !IsBlank(newStrategy) {
        TrimIdempotent(newStrategy);
        submitted := Some(Trim(newStrategy));
        newStrategy := "";
        isAdding := false;
      }
    }

    /** The "Annuler" button. */
    method Cancel()
      modifies this
      ensures !isAdding && newStrategy == ""
    {
      isAdding := false;
      newStrategy := "";
    }

    /** The "Aucune stratégie définie" placeholder, given the whole strategy
        list: the card is handed its type's strategies, and the placeholder
        shows when that list is empty and the form is closed. */
    function ShowsPlaceholder(strategies: seq<StrategyRow>): (r: bool)
      reads this
      ensures r <==> (forall x :: x in strategies ==> x.kind != kind) && !isAdding
    {
      var shown := StrategiesOf(strategies, kind);
      assert shown != [] ==> shown[0] in shown;
      |shown| == 0 && !isAdding
    }
  }
}
