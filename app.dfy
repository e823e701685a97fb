/** The view-state container of the application (src/App.tsx): the signed-in
    user, the user's analyses, the selected analysis and that analysis's
    items and strategies, with the handlers that change them. Each request
    to the hosted backend is an argument: the caller passes the outcome the
    backend answered, and the handler returns the request it sends. */
module App {
  import opened Supabase
  import opened Categories
  import SwotMatrix
  import ExampleData
  import AnalysisList

  // ---------------------------------------------------------------------
  // Removing records by id

  /** `rows.filter((r) => r.id !== id)` for any record kind with key `key`. */
  function DropId<T(!new)>(rows: seq<T>, key: T -> string, id: string): (r: seq<T>)
    ensures |r| <= |rows|
    ensures forall x :: x in r <==> x in rows && key(x) != id
  {
    Filter(rows, (x: T) => key(x) != id)
  }

  /** The keys of the rows are pairwise distinct. */
  ghost predicate DistinctKeys<T>(rows: seq<T>, key: T -> string)
  {
    forall i, j :: 0 <= i < j < |rows| ==> key(rows[i]) != key(rows[j])
  }

  /** Removing an id that no row has changes nothing. */
  lemma DropAbsentId<T(!new)>(rows: seq<T>, key: T -> string, id: string)
    requires forall k :: 0 <= k < |rows| ==> key(rows[k]) != id
    ensures DropId(rows, key, id) == rows
  {
    FilterAll(rows, (x: T) => key(x) != id);
  }

  /** With distinct keys, removing the id of row `k` takes out exactly that
      row and keeps every other row, in order. */
  lemma {:induction false} DropRemovesExactlyOne<T(!new)>(rows: seq<T>, key: T -> string, k: nat)
    requires DistinctKeys(rows, key) && k < |rows|
    ensures DropId(rows, key, key(rows[k])) == rows[..k] + rows[k + 1..]
  {
    var id, rest := key(rows[k]), rows[1..];
    assert DropId(rows, key, id) == (if key(rows[0]) != id then [rows[0]] else []) + DropId(rest, key, id);
    if k == 0 {
      assert forall i :: 0 <= i < |rest| ==> rest[i] == rows[i + 1];
      DropAbsentId(rest, key, id);
    } else {
      assert rest[k - 1] == rows[k];
      DistinctKeysTail(rows, key);
      DropRemovesExactlyOne(rest, key, k - 1);
      SpliceTail(rows, k);
    }
  }

  lemma DistinctKeysTail<T>(rows: seq<T>, key: T -> string)
    requires DistinctKeys(rows, key) && rows != []
    ensures DistinctKeys(rows[1..], key)
  {
    var rest := rows[1..];
    forall i, j | 0 <= i < j < |rest|
      ensures key(rest[i]) != key(rest[j])
    {
      assert rest[i] == rows[i + 1] && rest[j] == rows[j + 1];
    }
  }

  /** Cutting row `k` out of a list is keeping its head and cutting row
      `k - 1` out of its tail. */
  lemma SpliceTail<T>(rows: seq<T>, k: nat)
    requires 0 < k < |rows|
    ensures [rows[0]] + (rows[1..][..k - 1] + rows[1..][k..]) == rows[..k] + rows[k + 1..]
  {
    assert [rows[0]] + rows[1..][..k - 1] == rows[..k];
    assert rows[1..][k..] == rows[k + 1..];
  }

  /** Removing an id keeps the rows in their relative order: filtering a
      concatenation filters each part. */
  lemma DropKeepsOrder<T(!new)>(a: seq<T>, b: seq<T>, key: T -> string, id: string)
    ensures DropId(a + b, key, id) == DropId(a, key, id) + DropId(b, key, id)
  {
    FilterAppend(a, b, (x: T) => key(x) != id);
  }

  function AnalysisId(a: AnalysisRow): string { a.id }
  function ItemId(x: ItemRow): string { x.id }
  function StrategyId(s: StrategyRow): string { s.id }

  /** `if (!currentAnalysisId)` rejects both null and the empty string. */
  predicate HasSelection(current: Option<string>)
  {
    current.Some? && Truthy(current.value)
  }

  /** The selection after analysis `id` was deleted: the first remaining
      analysis (or none) when the deleted one was selected, otherwise the
      selection as it was. */
  function SelectionAfterDelete(remaining: seq<AnalysisRow>, current: Option<string>, id: string): (r: Option<string>)
    ensures current != Some(id) ==> r == current
    ensures current == Some(id) && remaining == [] ==> r == None
    ensures current == Some(id) && remaining != [] ==> r == Some(remaining[0].id)
  {
    if current == Some(id) then
      if |remaining| > 0 then Some(remaining[0].id) else None
    else
      current
  }

  // ---------------------------------------------------------------------
  // The order writes of a reorder

  /** One write of `reorderItems`: the id it filters on and the update it sends. */
  type Write = (string, ItemUpdate)

  /** `newItems.map((item, index) => ...)`: one write per item, carrying only
      the item's position in the new list. */
  function OrderWrites(newItems: seq<ItemRow>): (r: seq<Write>)
    ensures |r| == |newItems|
    ensures forall i :: 0 <= i < |r| ==> r[i].0 == newItems[i].id && r[i].1.content.None?
    ensures forall i :: 0 <= i < |r| ==> r[i].1 == ItemUpdate(None, Some(i))
  {
    seq(|newItems|, i requires 0 <= i < |newItems| => (newItems[i].id, ItemUpdate(None, Some(i))))
  }

  /** What one `update(...).eq('id', id)` does to the stored rows. */
  function ApplyWrite(rows: seq<ItemRow>, w: Write): (r: seq<ItemRow>)
    ensures |r| == |rows|
  {
    seq(|rows|, k requires 0 <= k < |rows| => if rows[k].id == w.0 then ApplyItemUpdate(rows[k], w.1) else rows[k])
  }

  /** The stored rows once every write has landed, in list order. */
  function ApplyWrites(rows: seq<ItemRow>, ws: seq<Write>): (r: seq<ItemRow>)
    ensures |r| == |rows|
    decreases |ws|
  {
    if ws == [] then rows else ApplyWrite(ApplyWrites(rows, ws[..|ws| - 1]), ws[|ws| - 1])
  }

  /** The position of a stored row in the reordered list, or -1. */
  function PositionIn(newItems: seq<ItemRow>, row: ItemRow): int
  {
    SwotMatrix.FindIndex(newItems, row.id)
  }

  /** After the first `j` writes, a stored row whose id sits at a position
      below `j` of the new list has that position as its order index, and
      nothing else about any row has changed. */
  lemma {:induction false} PrefixWritesSetPositions(stored: seq<ItemRow>, newItems: seq<ItemRow>, j: nat)
    requires DistinctKeys(newItems, ItemId) && j <= |newItems|
    ensures var r := ApplyWrites(stored, OrderWrites(newItems)[..j]);
      forall k :: 0 <= k < |stored| ==>
        r[k] == if 0 <= PositionIn(newItems, stored[k]) < j
                then stored[k].(orderIndex := PositionIn(newItems, stored[k]))
                else stored[k]
  {
    var ws := OrderWrites(newItems);
    if j > 0 {
      PrefixWritesSetPositions(stored, newItems, j - 1);
      assert ws[..j][..j - 1] == ws[..j - 1];
      var before := ApplyWrites(stored, ws[..j - 1]);
      var r := ApplyWrites(stored, ws[..j]);
      assert r == ApplyWrite(before, ws[j - 1]);
      forall k | 0 <= k < |stored|
        ensures r[k] == if 0 <= PositionIn(newItems, stored[k]) < j
                        then stored[k].(orderIndex := PositionIn(newItems, stored[k]))
                        else stored[k]
      {
        var p := PositionIn(newItems, stored[k]);
        assert before[k].id == stored[k].id;
        if stored[k].id == newItems[j - 1].id {
          assert ItemId(newItems[j - 1]) == ItemId(newItems[p]);
          assert p == j - 1;
        }
      }
    }
  }

  /** Once all the writes of a reorder have landed, every stored item that
      is in the new list has its position there as order index and keeps its
      stored category and content; the others are untouched. */
  lemma WritesSetPositions(stored: seq<ItemRow>, newItems: seq<ItemRow>)
    requires DistinctKeys(newItems, ItemId)
    ensures var r := ApplyWrites(stored, OrderWrites(newItems));
      forall k :: 0 <= k < |stored| ==>
        && r[k].(orderIndex := stored[k].orderIndex) == stored[k]
        && (PositionIn(newItems, stored[k]) >= 0 ==> r[k].orderIndex == PositionIn(newItems, stored[k]))
        && (PositionIn(newItems, stored[k]) < 0 ==> r[k] == stored[k])
  {
    var ws := OrderWrites(newItems);
    assert ws[..|newItems|] == ws;
    PrefixWritesSetPositions(stored, newItems, |newItems|);
  }

  /** Two stored items: a strength and a weakness, in that order. */
  function TieExample(): seq<ItemRow>
  {
    [ItemRow("a", "s", Strength, "A", "", 0), ItemRow("b", "s", Weakness, "B", "", 0)]
  }

  /** `addItem` numbers an item within its category (line 143) while
      `reorderItems` numbers items by their place in the whole list (line
      171): after the list above is reordered as it is, the weakness holds
      order index 1, which is also the index `addItem` hands the next
      weakness, so the two tie in the `order_index` ordering of a reload. */
  lemma ReorderThenAddTies()
    ensures var stored := ApplyWrites(TieExample(), OrderWrites(TieExample()));
      && stored[1].category == Weakness
      && stored[1].orderIndex == CountOf(stored, Weakness) == 1
  {
    var rows := TieExample();
    WritesSetPositions(rows, rows);
    assert PositionIn(rows, rows[1]) == 1;
    var stored := ApplyWrites(rows, OrderWrites(rows));
    CountOfCons(stored, Weakness);
    CountOfCons(stored[1..], Weakness);
  }

  // ---------------------------------------------------------------------
  // The screen

  datatype Screen =
    | Loading                              // "Chargement..."
    | Misconfigured                        // "Configuration Manquante"
    | SignIn                               // the Auth component
    | Dashboard(current: Option<AnalysisRow>)  // the analysis, or the welcome panel

  /** `analyses.find((a) => a.id === currentAnalysisId)`. */
  function FindAnalysis(analyses: seq<AnalysisRow>, current: Option<string>): (r: Option<AnalysisRow>)
    ensures r.Some? <==> exists k :: 0 <= k < |analyses| && current == Some(analyses[k].id)
    ensures r.Some? ==> r.value in analyses && current == Some(r.value.id)
    ensures r.Some? ==>
      exists k :: 0 <= k < |analyses| && r.value == analyses[k] && forall j :: 0 <= j < k ==> current != Some(analyses[j].id)
  {
    if analyses == [] then None
    else if current == Some(analyses[0].id) then Some(analyses[0])
    else
      var rest := FindAnalysis(analyses[1..], current);
      assert forall k :: 1 <= k < |analyses| ==> analyses[k] == analyses[1..][k - 1];
      if rest.Some? then
        var k :| 0 <= k < |analyses| - 1 && rest.value == analyses[1..][k]
          && forall j :: 0 <= j < k ==> current != Some(analyses[1..][j].id);
        assert rest.value == analyses[k + 1] && forall j :: 0 <= j < k + 1 ==> current != Some(analyses[j].id);
        rest
      else
        rest
  }

  // ---------------------------------------------------------------------
  // The container

  class SwotApp {
    /** The signed-in user's id, or none. */
    var user: Option<string>
    var loading: bool
    var analyses: seq<AnalysisRow>
    var currentAnalysisId: Option<string>
    var items: seq<ItemRow>
    var strategies: seq<StrategyRow>

    /** Every selection names an analysis of the list. */
    ghost predicate SelectionValid()
      reads this
    {
      currentAnalysisId.Some? ==> exists k :: 0 <= k < |analyses| && analyses[k].id == currentAnalysisId.value
    }

    /** The initial `useState` values. */
    constructor ()
      ensures user == None && loading && analyses == [] && currentAnalysisId == None
      ensures items == [] && strategies == []
      ensures SelectionValid()
    {
      user := None;
      loading := true;
      analyses := [];
      currentAnalysisId := None;
      items := [];
      strategies := [];
    }

    /** What the component shows: loading first, then the configuration
        warning, then the sign-in form, then the dashboard. */
    function View(configured: bool): (r: Screen)
      reads this
      ensures r == Loading <==> loading
      ensures r == Misconfigured <==> !loading && !configured
      ensures r == SignIn <==> !loading && configured && user.None?
      ensures r.Dashboard? ==> r.current == FindAnalysis(analyses, currentAnalysisId)
    {
      if loading then Loading
      else if !configured then Misconfigured
      else if user.None? then SignIn
      else Dashboard(FindAnalysis(analyses, currentAnalysisId))
    }

    /** With a valid selection, the dashboard shows an analysis exactly when
        one is selected. */
    lemma ValidSelectionIsShown()
      requires SelectionValid()
      ensures FindAnalysis(analyses, currentAnalysisId).Some? <==> currentAnalysisId.Some?
    {
    }

    /** When the sidebar shows "Aucune analyse créée", a valid selection is
        empty: no entry is highlighted and the dashboard shows the welcome
        panel instead of an analysis. */
    lemma EmptyListSelectsNothing()
      requires SelectionValid()
      ensures AnalysisList.ShowsEmptyState(analyses) ==>
        && currentAnalysisId == None
        && (forall a :: !AnalysisList.IsHighlighted(a, currentAnalysisId))
        && FindAnalysis(analyses, currentAnalysisId) == None
    {
    }

    /** `getSession().then(...)`: the session's user is known and loading ends. */
    method SessionResolved(sessionUser: Option<string>)
      modifies this
      ensures user == sessionUser && !loading
      ensures analyses == old(analyses) && currentAnalysisId == old(currentAnalysisId)
      ensures items == old(items) && strategies == old(strategies)
    {
      user := sessionUser;
      loading := false;
    }

    /** `onAuthStateChange`: the user follows the session. */
    method AuthStateChanged(sessionUser: Option<string>)
      modifies this
      ensures user == sessionUser && loading == old(loading)
      ensures analyses == old(analyses) && currentAnalysisId == old(currentAnalysisId)
      ensures items == old(items) && strategies == old(strategies)
    {
      user := sessionUser;
    }

    /** `loadAnalyses`: the list is replaced by the answer and, when nothing
        is selected yet, its first analysis becomes current. */
    method LoadAnalyses(outcome: Outcome<seq<AnalysisRow>>)
      modifies this
      ensures outcome.Failed? ==> analyses == old(analyses) && currentAnalysisId == old(currentAnalysisId)
      ensures outcome.Returned? ==> analyses == outcome.data
      ensures outcome.Returned? ==>
        currentAnalysisId == (if |outcome.data| > 0 && !HasSelection(old(currentAnalysisId))
                              then Some(outcome.data[0].id) else old(currentAnalysisId))
      ensures user == old(user) && loading == old(loading)
      ensures items == old(items) && strategies == old(strategies)
    {
      if outcome.Returned? {
        var data := outcome.data;
        analyses := data;
        if |data| > 0 && !HasSelection(currentAnalysisId) {
          currentAnalysisId := Some(data[0].id);
        }
      }
    }

    /** `loadItems`: the items of the selected analysis, as the backend
        ordered them, replace the list. */
    method LoadItems(outcome: Outcome<seq<ItemRow>>)
      modifies this
      ensures items == if outcome.Returned? then outcome.data else old(items)
      ensures user == old(user) && loading == old(loading)
      ensures analyses == old(analyses) && currentAnalysisId == old(currentAnalysisId)
      ensures strategies == old(strategies)
    {
      if outcome.Returned? {
        items := outcome.data;
      }
    }

    /** `loadStrategies`. */
    method LoadStrategies(outcome: Outcome<seq<StrategyRow>>)
      modifies this
      ensures strategies == if outcome.Returned? then outcome.data else old(strategies)
      ensures user == old(user) && loading == old(loading)
      ensures analyses == old(analyses) && currentAnalysisId == old(currentAnalysisId)
      ensures items == old(items)
    {
      if outcome.Returned? {
        strategies := outcome.data;
      }
    }

    /** `onSelect`: the clicked analysis becomes current. */
    method SelectAnalysis(id: string)
      modifies this
      ensures currentAnalysisId == Some(id)
      ensures user == old(user) && loading == old(loading) && analyses == old(analyses)
      ensures items == old(items) && strategies == old(strategies)
    {
      currentAnalysisId := Some(id);
    }

    /** `setAnalyses([row, ...analyses])` then `setCurrentAnalysisId(row.id)`:
        a new analysis goes first and becomes current. */
    method PutFirstAndSelect(row: AnalysisRow)
      modifies this
      ensures analyses == [row] + old(analyses) && currentAnalysisId == Some(row.id)
      ensures SelectionValid()
      ensures user == old(user) && loading == old(loading)
      ensures items == old(items) && strategies == old(strategies)
    {
      analyses := [row] + analyses;
      currentAnalysisId := Some(row.id);
      assert analyses[0].id == row.id;
    }

    /** `createAnalysis`: without a user nothing is sent; otherwise the new
        analysis is inserted and, when the backend returns it, put first in
        the list and selected. */
    method CreateAnalysis(title: string, description: string, outcome: Outcome<AnalysisRow>)
      returns (request: Option<AnalysisInsert>)
      modifies this
      ensures request.Some? <==> old(user).Some?
      ensures request.Some? ==>
        request.value == AnalysisInsert(None, title, Some(description), None, None, old(user).value)
      ensures request.Some? && outcome.Returned? ==>
        analyses == [outcome.data] + old(analyses) && currentAnalysisId == Some(outcome.data.id)
      ensures request.None? || outcome.Failed? ==>
        analyses == old(analyses) && currentAnalysisId == old(currentAnalysisId)
      ensures old(SelectionValid()) ==> SelectionValid()
      ensures user == old(user) && loading == old(loading)
      ensures items == old(items) && strategies == old(strategies)
    {
      if user.None? {
        return None;
      }
      request := Some(AnalysisInsert(None, title, Some(description), None, None, user.value));
      if outcome.Returned? {
        PutFirstAndSelect(outcome.data);
      }
    }

    /** `deleteAnalysis`: once the backend confirms, the analysis leaves the
        list; if it was the selected one, the first remaining analysis, or
        none, becomes current. */
    method DeleteAnalysis(id: string, succeeded: bool)
      modifies this
      ensures succeeded ==> analyses == DropId(old(analyses), AnalysisId, id)
      ensures succeeded ==> currentAnalysisId == SelectionAfterDelete(analyses, old(currentAnalysisId), id)
      ensures !succeeded ==> analyses == old(analyses) && currentAnalysisId == old(currentAnalysisId)
      ensures old(SelectionValid()) ==> SelectionValid()
      ensures user == old(user) && loading == old(loading)
      ensures items == old(items) && strategies == old(strategies)
    {
      if succeeded {
        var before := analyses;
        var remaining := DropId(before, AnalysisId, id);
        var selection := SelectionAfterDelete(remaining, currentAnalysisId, id);
        if currentAnalysisId.Some? && currentAnalysisId != Some(id) &&
           exists k :: 0 <= k < |before| && before[k].id == currentAnalysisId.value {
          var k :| 0 <= k < |before| && before[k].id == currentAnalysisId.value;
          assert AnalysisId(before[k]) != id;
          assert before[k] in remaining;
        }
        if selection.Some? && currentAnalysisId == Some(id) {
          assert remaining[0].id == selection.value;
        }
        analyses := remaining;
        currentAnalysisId := selection;
      }
    }

    /** `addItem`: without a selected analysis nothing is sent; otherwise the
        item is inserted with the number of items already in its category as
        order index and, when the backend returns it, appended to the list. */
    method AddItem(category: Category, content: string, outcome: Outcome<ItemRow>)
      returns (request: Option<ItemInsert>)
      modifies this
      ensures request.Some? <==> HasSelection(old(currentAnalysisId))
      ensures request.Some? ==>
        request.value == ItemInsert(None, old(currentAnalysisId).value, category, content, None,
                                    Some(CountOf(old(items), category)))
      ensures request.Some? && outcome.Returned? ==> items == old(items) + [outcome.data]
      ensures request.None? || outcome.Failed? ==> items == old(items)
      ensures user == old(user) && loading == old(loading)
      ensures analyses == old(analyses) && currentAnalysisId == old(currentAnalysisId)
      ensures strategies == old(strategies)
    {
      if !HasSelection(currentAnalysisId) {
        return None;
      }
      request := Some(ItemInsert(None, currentAnalysisId.value, category, content, None, Some(CountOf(items, category))));
      if outcome.Returned? {
        items := items + [outcome.data];
      }
    }

    /** `deleteItem`: once the backend confirms, the items with that id leave
        the list. */
    method DeleteItem(id: string, succeeded: bool)
      modifies this
      ensures items == if succeeded then DropId(old(items), ItemId, id) else old(items)
      ensures user == old(user) && loading == old(loading)
      ensures analyses == old(analyses) && currentAnalysisId == old(currentAnalysisId)
      ensures strategies == old(strategies)
    {
      if succeeded {
        items := DropId(items, ItemId, id);
      }
    }

    /** `reorderItems`: the list becomes the given one at once, and one write
        per item stores its new position. */
    method ReorderItems(newItems: seq<ItemRow>) returns (writes: seq<Write>)
      modifies this
      ensures items == newItems
      ensures writes == OrderWrites(newItems)
      ensures user == old(user) && loading == old(loading)
      ensures analyses == old(analyses) && currentAnalysisId == old(currentAnalysisId)
      ensures strategies == old(strategies)
    {
      items := newItems;
      writes := OrderWrites(newItems);
    }

    /** `addStrategy`: as `addItem`, for a strategy of type `kind`. */
    method AddStrategy(kind: StrategyType, description: string, outcome: Outcome<StrategyRow>)
      returns (request: Option<StrategyInsert>)
      modifies this
      ensures request.Some? <==> HasSelection(old(currentAnalysisId))
      ensures request.Some? ==> request.value == StrategyInsert(None, old(currentAnalysisId).value, kind, description, None)
      ensures request.Some? && outcome.Returned? ==> strategies == old(strategies) + [outcome.data]
      ensures request.None? || outcome.Failed? ==> strategies == old(strategies)
      ensures user == old(user) && loading == old(loading)
      ensures analyses == old(analyses) && currentAnalysisId == old(currentAnalysisId)
      ensures items == old(items)
    {
      if !HasSelection(currentAnalysisId) {
        return None;
      }
      request := Some(StrategyInsert(None, currentAnalysisId.value, kind, description, None));
      if outcome.Returned? {
        strategies := strategies + [outcome.data];
      }
    }

    /** `deleteStrategy`. */
    method DeleteStrategy(id: string, succeeded: bool)
      modifies this
      ensures strategies == if succeeded then DropId(old(strategies), StrategyId, id) else old(strategies)
      ensures user == old(user) && loading == old(loading)
      ensures analyses == old(analyses) && currentAnalysisId == old(currentAnalysisId)
      ensures items == old(items)
    {
      if succeeded {
        strategies := DropId(strategies, StrategyId, id);
      }
    }

    /** `loadExample`: without a user nothing is sent. Otherwise the example
        analysis is inserted; if that fails nothing more happens. When it
        succeeds its twelve items and four strategies are inserted (their
        failures are only logged) and the analysis is put first and selected. */
    method LoadExample(outcome: Outcome<AnalysisRow>)
      returns (request: Option<AnalysisInsert>, itemRequests: seq<ItemInsert>, strategyRequests: seq<StrategyInsert>)
      modifies this
      ensures request == if old(user).Some? then Some(ExampleData.AnalysisInsertFor(old(user).value)) else None
      ensures request.Some? && outcome.Returned? ==>
        && itemRequests == ExampleData.ItemInserts(outcome.data.id)
        && strategyRequests == ExampleData.StrategyInserts(outcome.data.id)
        && analyses == [outcome.data] + old(analyses) && currentAnalysisId == Some(outcome.data.id)
      ensures request.None? || outcome.Failed? ==>
        && itemRequests == [] && strategyRequests == []
        && analyses == old(analyses) && currentAnalysisId == old(currentAnalysisId)
      ensures old(SelectionValid()) ==> SelectionValid()
      ensures user == old(user) && loading == old(loading)
      ensures items == old(items) && strategies == old(strategies)
    {
      request, itemRequests, strategyRequests := None, [], [];
      if user.Some? {
        request := Some(ExampleData.AnalysisInsertFor(user.value));
        if outcome.Returned? {
          itemRequests := ExampleData.ItemInserts(outcome.data.id);
          strategyRequests := ExampleData.StrategyInserts(outcome.data.id);
          PutFirstAndSelect(outcome.data);
        }
      }
    }

    /** `handleSignOut`: everything the user saw is forgotten. */
    method SignOut()
      modifies this
      ensures user == None && analyses == [] && currentAnalysisId == None
      ensures items == [] && strategies == []
      ensures loading == old(loading)
      ensures SelectionValid()
    {
      user := None;
      analyses := [];
      currentAnalysisId := None;
      items := [];
      strategies := [];
    }
  }
}
