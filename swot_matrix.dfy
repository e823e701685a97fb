/** The four category cards and the drag-and-drop move rule
    (src/components/SwotMatrix.tsx). */
module SwotMatrix {
  import opened Supabase
  import opened Strings
  import opened Categories

  /** `items.findIndex((i) => i.id === id)`: the first position holding `id`,
      or -1 when no item has it. */
  function FindIndex(items: seq<ItemRow>, id: string): (r: int)
    ensures -1 <= r < |items|
    ensures r == -1 <==> forall k :: 0 <= k < |items| ==> items[k].id != id
    ensures r >= 0 ==> items[r].id == id && forall k :: 0 <= k < r ==> items[k].id != id
  {
    if items == [] then -1
    else if items[0].id == id then 0
    else
      var i := FindIndex(items[1..], id);
      if i == -1 then -1 else i + 1
  }

  /** The ids of the items, in list order. */
  function Ids(items: seq<ItemRow>): (r: seq<string>)
    ensures |r| == |items| && forall k :: 0 <= k < |items| ==> r[k] == items[k].id
  {
    seq(|items|, k requires 0 <= k < |items| => items[k].id)
  }

  /** The list without its element at `i` (`splice(i, 1)`). */
  function RemoveAt<T>(s: seq<T>, i: nat): (r: seq<T>)
    requires i < |s|
    ensures |r| == |s| - 1
    ensures forall k :: 0 <= k < i ==> r[k] == s[k]
    ensures forall k :: i <= k < |r| ==> r[k] == s[k + 1]
    ensures multiset(r) == multiset(s) - multiset{s[i]}
  {
    assert s == s[..i] + [s[i]] + s[i + 1..];
    s[..i] + s[i + 1..]
  }

  /** The list with `x` inserted so that it sits at `i` (`splice(i, 0, x)`). */
  function InsertAt<T>(s: seq<T>, i: nat, x: T): (r: seq<T>)
    requires i <= |s|
    ensures |r| == |s| + 1
    ensures r[i] == x
    ensures forall k :: 0 <= k < i ==> r[k] == s[k]
    ensures forall k :: i < k < |r| ==> r[k] == s[k - 1]
    ensures multiset(r) == multiset(s) + multiset{x}
  {
    assert s == s[..i] + s[i..];
    s[..i] + [x] + s[i..]
  }

  /** `arrayMove(s, from, to)` of dnd-kit: take the element at `from` out,
      then insert it so that it ends up at `to`; the elements in between
      shift by one place towards `from`. */
  function ArrayMove<T>(s: seq<T>, from: nat, to: nat): (r: seq<T>)
    requires from < |s| && to < |s|
    ensures |r| == |s|
    ensures r[to] == s[from]
    ensures forall k :: 0 <= k < |s| && k < from && k < to ==> r[k] == s[k]
    ensures forall k :: 0 <= k < |s| && k > from && k > to ==> r[k] == s[k]
    ensures forall k :: from <= k < to ==> r[k] == s[k + 1]
    ensures forall k :: to < k <= from ==> r[k] == s[k - 1]
    ensures multiset(r) == multiset(s)
  {
    InsertAt(RemoveAt(s, from), to, s[from])
  }

  /** What dropping the item at `from` onto the item at `to` produces: the
      moved item first takes the target's category (a no-op when they
      already agree), then it is moved to the target's position. */
  function DropOnto(items: seq<ItemRow>, from: nat, to: nat): (r: seq<ItemRow>)
    requires from < |items| && to < |items|
    ensures |r| == |items|
    ensures r[to] == items[from].(category := items[to].category)
    ensures multiset(r) == multiset(items) - multiset{items[from]} + multiset{items[from].(category := items[to].category)}
  {
    var moved := items[from].(category := items[to].category);
    var recategorised := items[from := moved];
    assert multiset(recategorised) == multiset(items) - multiset{items[from]} + multiset{moved};
    ArrayMove(recategorised, from, to)
  }

  /** Moving items and then reading their ids is reading the ids and then
      moving them. */
  lemma IdsOfArrayMove(s: seq<ItemRow>, from: nat, to: nat)
    requires from < |s| && to < |s|
    ensures Ids(ArrayMove(s, from, to)) == ArrayMove(Ids(s), from, to)
  {
    var lhs, rhs := Ids(ArrayMove(s, from, to)), ArrayMove(Ids(s), from, to);
    forall k | 0 <= k < |s|
      ensures lhs[k] == rhs[k]
    {
      if k == to {
      } else if k < from && k < to {
      } else if k > from && k > to {
      } else if from <= k < to {
      } else {
        assert to < k <= from;
      }
    }
  }

  /** A drop keeps every id, each as often as before. */
  lemma DropKeepsIds(items: seq<ItemRow>, from: nat, to: nat)
    requires from < |items| && to < |items|
    ensures multiset(Ids(DropOnto(items, from, to))) == multiset(Ids(items))
  {
    var moved := items[from].(category := items[to].category);
    var recategorised := items[from := moved];
    assert Ids(recategorised) == Ids(items);
    IdsOfArrayMove(recategorised, from, to);
  }

  /** When the two items share a category, a drop is a pure permutation:
      every item keeps all of its fields. */
  lemma DropWithinCategory(items: seq<ItemRow>, from: nat, to: nat)
    requires from < |items| && to < |items|
    requires items[from].category == items[to].category
    ensures DropOnto(items, from, to) == ArrayMove(items, from, to)
    ensures multiset(DropOnto(items, from, to)) == multiset(items)
  {
    assert items[from].(category := items[to].category) == items[from];
    assert items[from := items[from]] == items;
  }

  /** Across categories, the moved item takes the target's category and
      keeps its other fields, and every other item is left exactly as it was. */
  lemma DropAcrossCategories(items: seq<ItemRow>, from: nat, to: nat)
    requires from < |items| && to < |items|
    requires items[from].category != items[to].category
    ensures var r := DropOnto(items, from, to);
      && r[to].category == items[to].category
      && r[to].(category := items[from].category) == items[from]
      && forall k :: 0 <= k < |r| && k != to ==> r[k] in items[..from] + items[from + 1..]
  {
    var r := DropOnto(items, from, to);
    var others := items[..from] + items[from + 1..];
    forall k | 0 <= k < |r| && k != to
      ensures r[k] in others
    {
      if k < from && k < to {
        assert r[k] == items[k] == others[k];
      } else if k > from && k > to {
        assert r[k] == items[k] == others[k - 1];
      } else if from <= k < to {
        assert r[k] == items[k + 1] == others[k];
      } else {
        assert to < k <= from;
        assert r[k] == items[k - 1] == others[k - 1];
      }
    }
  }

  /** Dropping the same item onto the same target twice need not give the
      same list: after the first drop the two items have swapped places and
      share a category, so the second drop moves them back. */
  lemma RepeatedDropDiffers()
    ensures var a := ItemRow("a", "x", Strength, "A", "", 0);
            var b := ItemRow("b", "x", Weakness, "B", "", 1);
            var once := DropOnto([a, b], 0, 1);
            && once == [b, a.(category := Weakness)]
            && FindIndex(once, "a") == 1 && FindIndex(once, "b") == 0
            && DropOnto(once, 1, 0) != once
  {
    var a := ItemRow("a", "x", Strength, "A", "", 0);
    var b := ItemRow("b", "x", Weakness, "B", "", 1);
    var once := DropOnto([a, b], 0, 1);
    assert once[1] == a.(category := Weakness);
    assert once[0] == b;
    assert once == [b, a.(category := Weakness)];
    assert DropOnto(once, 1, 0)[0] == a.(category := Weakness);
  }

  /** The drag state of the matrix: the id of the item being dragged. */
  class Matrix {
    var activeId: Option<string>

    constructor ()
      ensures activeId == None
    {
      activeId := None;
    }

    /** `handleDragStart`. */
    method HandleDragStart(id: string)
      modifies this
      ensures activeId == Some(id)
    {
      activeId := Some(id);
    }

    /** The item shown under the cursor while dragging:
        `activeId ? items.find((i) => i.id === activeId) : null`. */
    function ActiveItem(items: seq<ItemRow>): (r: Option<ItemRow>)
      reads this
      ensures r.Some? <==> activeId.Some? && activeId.value != "" && FindIndex(items, activeId.value) != -1
      ensures r.Some? ==> r.value.id == activeId.value && r.value in items
      ensures r.Some? ==> r.value == items[FindIndex(items, activeId.value)]
    {
      if activeId.Some? && Truthy(activeId.value) then
        var i := FindIndex(items, activeId.value);
        if i == -1 then None else Some(items[i])
      else None
    }

    /** `handleDragEnd`: clears the drag state and returns the list handed to
        `onReorderItems`, or None when that callback is not called. */
    method HandleDragEnd(items: seq<ItemRow>, active: string, over: Option<string>)
      returns (reorder: Option<seq<ItemRow>>)
      modifies this
      ensures activeId == None
      ensures reorder.Some? <==>
        over.Some? && over.value != active && FindIndex(items, active) != -1 && FindIndex(items, over.value) != -1
      ensures reorder.Some? ==>
        reorder.value == DropOnto(items, FindIndex(items, active), FindIndex(items, over.value))
    {
      activeId := None;
      reorder := None;
      if over.None? {
        return;
      }
      var overId := over.value;
      if active != overId {
        var oldIndex := FindIndex(items, active);
        var newIndex := FindIndex(items, overId);
        if oldIndex != -1 && newIndex != -1 {
          var activeItem := items[oldIndex];
          var overItem := items[newIndex];
          if activeItem.category != overItem.category {
            var newItems := items;
            newItems := newItems[oldIndex := activeItem.(category := overItem.category)];
            reorder := Some(ArrayMove(newItems, oldIndex, newIndex));
          } else {
            DropWithinCategory(items, oldIndex, newIndex);
            reorder := Some(ArrayMove(items, oldIndex, newIndex));
          }
        }
      }
    }
  }

  /** The draft state of one category card: the text being typed and
      whether the add form is open. */
  class CategoryCard {
    const category: Category
    var newItem: string
    var isAdding: bool

    constructor (category: Category)
      ensures this.category == category && newItem == "" && !isAdding
    {
      this.category := category;
      newItem := "";
      isAdding := false;
    }

    /** The "Ajouter un élément" button opens the form. */
    method StartAdding()
      modifies this
      ensures isAdding && newItem == old(newItem)
    {
      isAdding := true;
    }

    /** Typing in the text area. */
    method Edit(text: string)
      modifies this
      ensures newItem == text && isAdding == old(isAdding)
    {
      newItem := text;
    }

    /** `handleAdd`: a blank draft is ignored; otherwise the trimmed draft is
        handed to `onAddItem` for this card's category and the form is reset. */
    method HandleAdd() returns (submitted: Option<string>)
      modifies this
      ensures IsBlank(old(newItem)) ==> submitted == None && newItem == old(newItem) && isAdding == old(isAdding)
      ensures !IsBlank(old(newItem)) ==> submitted == Some(Trim(old(newItem))) && newItem == "" && !isAdding
      ensures submitted.Some? ==> !IsBlank(submitted.value) && Trim(submitted.value) == submitted.value
    {
      submitted := None;
      if !IsBlank(newItem) {
        TrimIdempotent(newItem);
        submitted := Some(Trim(newItem));
        newItem := "";
        isAdding := false;
      }
    }

    /** The "Annuler" button. */
    method Cancel()
      modifies this
      ensures !isAdding && newItem == ""
    {
      isAdding := false;
      newItem := "";
    }

    /** The "Aucun élément" placeholder of a card, given the whole item list:
        the card is handed its category's items, and the placeholder shows
        when that list is empty and the form is closed. */
    function ShowsPlaceholder(items: seq<ItemRow>): (r: bool)
      reads this
      ensures r <==> (forall x :: x in items ==> x.category != category) && !isAdding
    {
      var shown := ItemsOf(items, category);
      assert shown != [] ==> shown[0] in shown;
      |shown| == 0 && !isAdding
    }
  }

  /** The cards, in the order they are laid out, each with the items
      `getItemsByCategory` gives it; together they show every item once. */
  function Cards(items: seq<ItemRow>): (r: seq<(Category, seq<ItemRow>)>)
    ensures |r| == 4
    ensures r[0] == (Strength, ItemsOf(items, Strength)) && r[1] == (Weakness, ItemsOf(items, Weakness))
    ensures r[2] == (Opportunity, ItemsOf(items, Opportunity)) && r[3] == (Threat, ItemsOf(items, Threat))
    ensures |r[0].1| + |r[1].1| + |r[2].1| + |r[3].1| == |items|
  {
    TallyTotal(items);
    [(Strength, ItemsOf(items, Strength)), (Weakness, ItemsOf(items, Weakness)),
     (Opportunity, ItemsOf(items, Opportunity)), (Threat, ItemsOf(items, Threat))]
  }
}
