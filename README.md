# SWOT editor: a Dafny model of its view state, move rule, analytics and export

This project models the logic of a React SWOT-analysis editor. A signed-in
user keeps a list of analyses. Each analysis holds items in four categories
(strength, weakness, opportunity, threat) and strategies of four TOWS types
(SO, WO, ST, WT). All records live in a hosted backend.

The model covers:

- **Data and configuration** (`Supabase`): the three table types and their
  partial updates. An item update cannot carry a category. The configuration
  check needs a non-empty URL and a non-empty key.
- **The view-state container** (`App`, class `SwotApp`): the user, the
  analyses, the selected analysis, its items and its strategies. Every handler
  is a method. It takes the outcome the backend answered (`Returned(row)` or
  `Failed`) as a parameter and returns the request it sends. `reorderItems`
  returns the list of order-index writes. Their effect on the stored rows is
  `ApplyWrites`.
- **The example analysis** (`ExampleData`): the Tesla analysis that
  `loadExample` inserts, with its twelve items and four strategies.
- **The drag-and-drop move rule** (`SwotMatrix`): `handleDragEnd` first gives
  the dragged item the target's category, then moves it with `arrayMove`,
  specified as remove-then-insert. The module also holds the drag state, the
  category cards and their add forms.
- **The recommendation table** (`AiInsights`): four conditional pushes.
- **The balance panel** (`SwotStats`): counts, radar rows, labels, and the
  rounded percentage scores in integer arithmetic.
- **The plain-text export** (`ExportButton`): the text is specified as a list
  of lines, each followed by a line feed. The `+=` loops of `handleExportTxt`
  are methods proved to build exactly that text.
- **The form drafts** of the strategy cards (`SwotStrategies`) and of the
  analysis list (`AnalysisList`).
- **Shared helpers**:
  - `Categories`: the per-category and per-type filters every component
    writes out.
  - `Strings`: `String.prototype.trim`, over the exact ECMAScript
    whitespace and line-terminator set.

## Model

| member | source | states |
|---|---|---|
| Supabase.IsConfigured | src/lib/supabase.ts:3-6 | configured exactly when both the URL and the key variables are set and non-empty |
| Supabase.ParseCategory | src/lib/supabase.ts:41 | only the four category names are categories, and reading a name gives back the category that is stored under it |
| Supabase.CategoryNameRoundTrip | src/lib/supabase.ts:41 | storing a category and reading it back gives the same category |
| Supabase.ParseStrategyType | src/lib/supabase.ts:63 | only SO, WO, ST and WT are strategy types, and reading a name gives back the type that is stored under it |
| Supabase.StrategyTypeNameRoundTrip | src/lib/supabase.ts:63 | storing a strategy type and reading it back gives the same type |
| Supabase.ApplyAnalysisUpdate | src/lib/supabase.ts:30-35 | each of id, title, description and update time is set when the update carries it and kept when it does not; the owner and the creation time never change, so an empty update changes nothing |
| Supabase.ApplyItemUpdate | src/lib/supabase.ts:54-57 | an item update changes at most the content and the order index, never the category; each field it carries is set and each it omits is kept |
| Supabase.ApplyStrategyUpdate | src/lib/supabase.ts:74-76 | a strategy update changes at most the description |
| Strings.TrimStart | src/components/SwotMatrix.tsx:123 | the result is the suffix of the input left after a run of whitespace, and it does not start with whitespace |
| Strings.TrimEnd | src/components/SwotMatrix.tsx:123 | the result is the prefix left before a trailing run of whitespace, and it does not end with whitespace |
| Strings.Trim | src/components/SwotMatrix.tsx:123 | the result is a slice of the input with only whitespace cut off on either side, and it neither starts nor ends with whitespace: exactly the maximal trim |
| Strings.BlankIffAllWhitespace | src/components/SwotMatrix.tsx:123 | a draft trims to nothing exactly when it is whitespace throughout |
| Strings.TrimIdempotent | src/components/SwotMatrix.tsx:124 | trimming a trimmed text changes nothing |
| Strings.Repeat | src/components/ExportButton.tsx:31 | the repeated rule has the requested length and that character at every position |
| Strings.RenderAppend | src/components/ExportButton.tsx:29-78 | the text of two line lists one after the other is the first text followed by the second |
| Categories.Filter | src/components/SwotMatrix.tsx:237-238 | the filter keeps exactly the elements that pass, and only those |
| Categories.FilterAppend | src/components/SwotMatrix.tsx:237-238 | filtering commutes with concatenation, so the kept elements stay in their relative order |
| Categories.ItemsOf | src/components/SwotMatrix.tsx:237-238 | an item is in a category's list exactly when it is in the list and has that category |
| Categories.ItemsOfAppend | src/components/SwotMatrix.tsx:237-238 | the category lists of a concatenation are the concatenated category lists: list order is kept |
| Categories.TallyTotal | src/components/AiInsights.tsx:16-21 | the four category counts add up to the number of items |
| Categories.ItemsOfMultiplicity | src/components/SwotMatrix.tsx:237-238 | an item occurs in its own category's list as often as in the whole list, and in no other category's list |
| Categories.CategoriesPartition | src/components/SwotMatrix.tsx:299-322 | the four card lists together are a permutation of the item list |
| Categories.StrategiesOf | src/components/SwotStrategies.tsx:154-155 | a strategy is in a type's list exactly when it is in the list and has that type |
| Categories.StrategiesOfAppend | src/components/SwotStrategies.tsx:154-155 | the type lists of a concatenation are the concatenated type lists: list order is kept |
| Categories.StrategyTypesPartition | src/components/SwotStrategies.tsx:165-172 | the four type lists together hold as many strategies as the list |
| SwotMatrix.FindIndex | src/components/SwotMatrix.tsx:263-264 | the result is -1 exactly when no item has the id, and otherwise the first position that holds the id |
| SwotMatrix.RemoveAt | src/components/SwotMatrix.tsx:275 | removing position i shifts the later elements down by one and removes exactly one copy of that element |
| SwotMatrix.InsertAt | src/components/SwotMatrix.tsx:275 | the element lands at position i, the later elements shift up by one, and nothing else is added |
| SwotMatrix.ArrayMove | src/components/SwotMatrix.tsx:275-277 | the moved element lands at the target index, the elements in between shift by one towards the source, the rest stay, and the result is a permutation |
| SwotMatrix.DropOnto | src/components/SwotMatrix.tsx:268-277 | the dragged item, with the target's category, sits at the target's former index; as a multiset the list is the old one with that item replaced by its re-categorised copy |
| SwotMatrix.IdsOfArrayMove | src/components/SwotMatrix.tsx:275-277 | moving the items moves their ids in the same way |
| SwotMatrix.DropKeepsIds | src/components/SwotMatrix.tsx:273-277 | a drop keeps every id exactly as often as before |
| SwotMatrix.DropWithinCategory | src/components/SwotMatrix.tsx:276-277 | within one category a drop is a pure permutation and changes no item's fields |
| SwotMatrix.DropAcrossCategories | src/components/SwotMatrix.tsx:271-275 | across categories the moved item takes the target's category and keeps its other fields, and every other item is one of the untouched items |
| SwotMatrix.RepeatedDropDiffers | src/components/SwotMatrix.tsx:262-277 | on two items of different categories, a drop swaps them and gives the dragged item the target's category; dropping it onto the same target again changes the list again, so drops are not idempotent |
| SwotMatrix.Matrix.constructor | src/components/SwotMatrix.tsx:224 | no item is being dragged at first |
| SwotMatrix.Matrix.HandleDragStart | src/components/SwotMatrix.tsx:240-242 | the dragged id is recorded |
| SwotMatrix.Matrix.ActiveItem | src/components/SwotMatrix.tsx:283 | the overlay item exists exactly when a non-empty active id belongs to a listed item, and it is the first listed item with that id |
| SwotMatrix.Matrix.HandleDragEnd | src/components/SwotMatrix.tsx:253-281 | the drag state is cleared; a reorder is issued exactly when there is a target other than the dragged item and both ids are listed, and it is the drop of one onto the other |
| SwotMatrix.CategoryCard.constructor | src/components/SwotMatrix.tsx:118-119 | a card starts with an empty draft and a closed form |
| SwotMatrix.CategoryCard.StartAdding | src/components/SwotMatrix.tsx:210 | the add button opens the form and keeps the draft |
| SwotMatrix.CategoryCard.Edit | src/components/SwotMatrix.tsx:178 | typing replaces the draft and leaves the form open or closed as it was |
| SwotMatrix.CategoryCard.HandleAdd | src/components/SwotMatrix.tsx:122-128 | a blank draft submits nothing and changes nothing; otherwise the trimmed draft, non-blank and already trimmed, is submitted, and the draft and form are reset |
| SwotMatrix.CategoryCard.Cancel | src/components/SwotMatrix.tsx:198-201 | cancel closes the form and clears the draft |
| SwotMatrix.CategoryCard.ShowsPlaceholder | src/components/SwotMatrix.tsx:163-167 | "Aucun élément" shows exactly when no item of the whole list has the card's category and the form is closed |
| SwotMatrix.Cards | src/components/SwotMatrix.tsx:299-322 | the cards come in the order strength, weakness, opportunity, threat, each with its category's items, and together they show as many items as the list holds |
| AiInsights.RankAtLeastPosition | src/components/AiInsights.tsx:23-66 | in rule order, the entry at position i comes from rule i or a later one |
| AiInsights.RuleOrderBounds | src/components/AiInsights.tsx:23-66 | a list in rule order has at most four entries, all different |
| AiInsights.PushKeepsRuleOrder | src/components/AiInsights.tsx:23-66 | pushing the recommendation of a later rule keeps rule order |
| AiInsights.Insights | src/components/AiInsights.tsx:15-67 | each of the four recommendations is present exactly when its rule's condition holds; the list is in rule order with at most four entries; "Stratégie Offensive" never comes with "Focus Interne Requis" or "Posture Défensive" |
| AiInsights.Render | src/components/AiInsights.tsx:69-113 | nothing is rendered exactly when there are no items; otherwise the shown recommendations are the rule table's, each present exactly when its rule holds and in rule order, and the hint shows exactly when no rule holds |
| SwotStats.InternalLabel | src/components/SwotStats.tsx:110 | "Dominant", "Équilibré" or "Fragile" exactly when strengths are more than, equal to or fewer than weaknesses |
| SwotStats.ExternalLabel | src/components/SwotStats.tsx:125 | "Elevé", "Modéré" or "Risqué" exactly when opportunities are more than, equal to or fewer than threats |
| SwotStats.Score | src/components/SwotStats.tsx:115 | the score lies in [0, 100], is 0 when both counts are 0, and otherwise is bracketed as 100·a/(a+b) rounded halves up |
| SwotStats.ScoreIsRoundedPercentage | src/components/SwotStats.tsx:115 | the score is within one half of 100·a/(a+b), and halves round up |
| SwotStats.LabelAgreesWithScore | src/components/SwotStats.tsx:110-115 | a dominant side scores at least 50, a balanced non-empty pair scores exactly 50, and a weaker side scores at most 50 |
| SwotStats.SwappedScoresSum | src/components/SwotStats.tsx:115 | the two sides of a balance score 100 together, or 101 when a tie at one half rounds both up |
| SwotStats.RadarData | src/components/SwotStats.tsx:32-37 | four rows in the order Forces, Opportunités, Menaces, Faiblesses, each with its own category's count as value and the total as full mark; the values add up to the total |
| SwotStats.Panel | src/components/SwotStats.tsx:23-130 | the panel's counts are the category counts and its total the number of items; its radar rows, labels and scores are those of the counts (strengths against weaknesses inside, opportunities against threats outside), and both scores are in [0, 100] |
| SwotStrategies.CardOrderListsEachTypeOnce | src/components/SwotStrategies.tsx:16-49 | the cards list each of the four strategy types exactly once |
| SwotStrategies.Cards | src/components/SwotStrategies.tsx:165-172 | the cards come in the order SO, WO, ST, WT, each with its type's strategies, and together they hold as many strategies as the list |
| SwotStrategies.CardShowsItsType | src/components/SwotStrategies.tsx:154-155 | a card shows exactly the strategies of its type, and every strategy is on some card |
| SwotStrategies.StrategyCard.constructor | src/components/SwotStrategies.tsx:64-65 | a card starts with an empty draft and a closed form |
| SwotStrategies.StrategyCard.StartAdding | src/components/SwotStrategies.tsx:138 | the add button opens the form and keeps the draft |
| SwotStrategies.StrategyCard.Edit | src/components/SwotStrategies.tsx:112 | typing replaces the draft |
| SwotStrategies.StrategyCard.HandleAdd | src/components/SwotStrategies.tsx:68-74 | a blank draft submits nothing and changes nothing; otherwise the trimmed draft is submitted, and the draft and form are reset |
| SwotStrategies.StrategyCard.Cancel | src/components/SwotStrategies.tsx:126-129 | cancel closes the form and clears the draft |
| SwotStrategies.StrategyCard.ShowsPlaceholder | src/components/SwotStrategies.tsx:101-105 | "Aucune stratégie définie" shows exactly when no strategy of the whole list has the card's type and the form is closed |
| AnalysisList.CreateForm.constructor | src/components/AnalysisList.tsx:29-31 | the form starts closed with an empty title and description |
| AnalysisList.CreateForm.StartCreating | src/components/AnalysisList.tsx:57 | "Nouvelle analyse" opens the form and keeps both drafts |
| AnalysisList.CreateForm.EditTitle | src/components/AnalysisList.tsx:78 | typing replaces the title draft only |
| AnalysisList.CreateForm.EditDescription | src/components/AnalysisList.tsx:85 | typing replaces the description draft only |
| AnalysisList.CreateForm.HandleCreate | src/components/AnalysisList.tsx:33-40 | a blank title creates nothing and changes nothing; otherwise the trimmed title, non-blank, and the trimmed description are handed on, and the form is cleared and closed |
| AnalysisList.CreateForm.Cancel | src/components/AnalysisList.tsx:98-101 | cancel closes the form and clears both drafts |
| AnalysisList.AtMostOneHighlighted | src/components/AnalysisList.tsx:122 | with distinct ids at most one entry is highlighted, and it is the one whose id is the current id |
| AnalysisList.DeleteRequest | src/components/AnalysisList.tsx:142-144 | the delete request is sent exactly when the user confirms, and it carries the analysis's id |
| ExportButton.SectionShape | src/components/ExportButton.tsx:44-52 | a section is its heading, then the placeholder alone or else every bullet in order, then a blank line |
| ExportButton.CategorySectionShape | src/components/ExportButton.tsx:42-53 | a category's section is exactly label, "  (Aucun élément)" and a blank line when the category is empty; otherwise it is the label, one "  • content" line per item of the category in list order, and a blank line |
| ExportButton.StrategySectionShape | src/components/ExportButton.tsx:66-77 | a type's section is exactly label, "  (Aucune stratégie)" and a blank line when the type has no strategies; otherwise it is the label, one bullet per strategy of the type in list order, and a blank line |
| ExportButton.WriteHeader | src/components/ExportButton.tsx:30-37 | the header statements append exactly the text of the banner, the rule, the title, the description line when there is one, and the date |
| ExportButton.WriteItemBullets | src/components/ExportButton.tsx:48-50 | the loop over a category's items appends exactly one bullet line per item |
| ExportButton.WriteStrategyBullets | src/components/ExportButton.tsx:72-74 | the loop over a type's strategies appends exactly one bullet line per strategy |
| ExportButton.WriteCategory | src/components/ExportButton.tsx:43-52 | one pass over a category appends exactly that category's section |
| ExportButton.WriteStrategyType | src/components/ExportButton.tsx:67-76 | one pass over a type appends exactly that type's section |
| ExportButton.WriteCategories | src/components/ExportButton.tsx:42-53 | the loop over the four categories appends their sections in order |
| ExportButton.WriteMatrix | src/components/ExportButton.tsx:39-53 | the matrix part is its heading followed by the four category sections |
| ExportButton.WriteStrategyTypes | src/components/ExportButton.tsx:66-77 | the loop over the four types appends their sections in order |
| ExportButton.WriteStrategies | src/components/ExportButton.tsx:55-77 | the strategies part is a blank line, "STRATÉGIES", a rule and a blank line, then the four type sections |
| ExportButton.ExportTxt | src/components/ExportButton.tsx:29-78 | the accumulated content is exactly the text of the export's lines: header, matrix part, and the strategies part when there are strategies |
| ExportButton.ExportStartsWithBanner | src/components/ExportButton.tsx:30-31 | the text starts with "ANALYSE SWOT" and a line of 50 '=' |
| ExportButton.HeaderInitials | src/components/ExportButton.tsx:30-37 | no header line starts with 'S', and the only header line that starts with 'D' but not "Da" is the description line |
| ExportButton.BodyInitials | src/components/ExportButton.tsx:39-77 | no line after the header starts with 'D', and no line of the matrix part starts with 'S' |
| ExportButton.DescriptionLineIffDescription | src/components/ExportButton.tsx:34-36 | a "Description: " line is written when the description is non-empty, and any such line is that description's line |
| ExportButton.StrategiesPartIffStrategies | src/components/ExportButton.tsx:55-56 | the "STRATÉGIES" line appears exactly when there are strategies |
| ExportButton.MatrixInCategoryOrder | src/components/ExportButton.tsx:39-53 | the matrix part lists the sections in the order strength, weakness, opportunity, threat |
| ExportButton.StrategiesInTypeOrder | src/components/ExportButton.tsx:56-77 | the strategies part lists the sections in the order SO, WO, ST, WT |
| ExportButton.EveryItemExported | src/components/ExportButton.tsx:48-50 | every item appears as a "  • content" line of the export |
| ExportButton.EveryStrategyExported | src/components/ExportButton.tsx:72-74 | when there are strategies, every strategy appears as a bullet line of the export |
| ExampleData.AnalysisInsertFor | src/App.tsx:219-227 | the example analysis is inserted for the signed-in user with the Tesla title and description, and leaves id and dates to the backend |
| ExampleData.ItemInsertsListed | src/App.tsx:235-253 | twelve items for the new analysis, three per category in the order strength, weakness, opportunity, threat, with the listed texts and order index 0 to 11 |
| ExampleData.IndicesAreGlobal | src/App.tsx:248-253 | an example item's order index is its place in the whole list (three times its category's rank plus its place in the category), not its place within its category |
| ExampleData.StrategyInsertsListed | src/App.tsx:262-271 | four strategies for the new analysis, one per type in the order SO, WO, ST, WT, with the listed texts |
| App.DropId | src/App.tsx:126 | a row is kept exactly when it was listed and its key differs from the removed id |
| App.DropAbsentId | src/App.tsx:161 | removing an id no row has changes nothing |
| App.DropRemovesExactlyOne | src/App.tsx:161 | with distinct ids, removing a row's id takes out that row and keeps every other row in order |
| App.DropKeepsOrder | src/App.tsx:211 | removing an id from a concatenation removes it from each part, so the kept rows stay in order |
| App.SelectionAfterDelete | src/App.tsx:127-130 | deleting the selected analysis selects the first remaining one, or none; deleting another keeps the selection |
| App.OrderWrites | src/App.tsx:169-180 | one write per item of the new list, in list order, filtering on that item's id and setting only its order index, to its position in the list |
| App.PrefixWritesSetPositions | src/App.tsx:178-182 | after the first j writes, each stored row listed below position j holds that position as order index and nothing else has changed |
| App.WritesSetPositions | src/App.tsx:165-182 | once every write has landed, each stored item in the new list holds its position as order index and every other field is unchanged, and a stored item not in the new list is left as it was; in particular the category a cross-category drop gave the item is shown but never stored |
| App.ReorderThenAddTies | src/App.tsx:143 | after a reorder, a weakness can hold order index 1, which is also the index the next added weakness receives |
| App.FindAnalysis | src/App.tsx:323 | the shown analysis exists exactly when some listed analysis has the current id, and it is the first listed analysis with that id |
| App.SwotApp.constructor | src/App.tsx:20-25 | the container starts loading, with no user, no analyses, no selection, no items and no strategies |
| App.SwotApp.View | src/App.tsx:293-323 | loading comes first, then the configuration warning, then the sign-in form; the dashboard shows the analysis with the current id, if any |
| App.SwotApp.ValidSelectionIsShown | src/App.tsx:323-360 | when the selection names a listed analysis, the dashboard shows an analysis exactly when one is selected |
| App.SwotApp.EmptyListSelectsNothing | src/components/AnalysisList.tsx:111-122 | when the sidebar shows its empty state under a valid selection, nothing is selected, no entry is highlighted and the dashboard shows no analysis |
| App.SwotApp.SessionResolved | src/App.tsx:28-31 | the session's user is recorded and loading ends; nothing else changes |
| App.SwotApp.AuthStateChanged | src/App.tsx:35-37 | the user follows the session; nothing else changes |
| App.SwotApp.LoadAnalyses | src/App.tsx:55-69 | on success the list is replaced and, when nothing is selected yet, the first analysis becomes current; on failure nothing changes |
| App.SwotApp.LoadItems | src/App.tsx:71-83 | on success the items are replaced by the answer; on failure nothing changes |
| App.SwotApp.LoadStrategies | src/App.tsx:85-97 | on success the strategies are replaced by the answer; on failure nothing changes |
| App.SwotApp.SelectAnalysis | src/App.tsx:351 | the clicked analysis becomes current |
| App.SwotApp.PutFirstAndSelect | src/App.tsx:115-116 | the new analysis is put first and selected, so the selection names a listed analysis |
| App.SwotApp.CreateAnalysis | src/App.tsx:99-118 | a request is sent exactly when there is a user; on success the analysis is prepended and becomes current; otherwise nothing changes; a valid selection stays valid |
| App.SwotApp.DeleteAnalysis | src/App.tsx:120-132 | on success the analysis leaves the list and the selection moves as described for SelectionAfterDelete; on failure nothing changes; a valid selection stays valid |
| App.SwotApp.AddItem | src/App.tsx:134-153 | a request is sent exactly when an analysis is selected, with the number of items already in the category as order index; on success the item is appended and the earlier items are unchanged; otherwise nothing changes |
| App.SwotApp.DeleteItem | src/App.tsx:155-163 | on success exactly the items with that id are removed; on failure nothing changes |
| App.SwotApp.ReorderItems | src/App.tsx:165-183 | the items become exactly the given list, and the writes issued are one order-index write per item |
| App.SwotApp.AddStrategy | src/App.tsx:185-203 | a request is sent exactly when an analysis is selected; on success the strategy is appended; otherwise nothing changes |
| App.SwotApp.DeleteStrategy | src/App.tsx:205-213 | on success exactly the strategies with that id are removed; on failure nothing changes |
| App.SwotApp.LoadExample | src/App.tsx:215-282 | without a user nothing is sent; otherwise the example analysis is requested; if it is returned, its twelve items and four strategies are requested for it, and it is prepended and selected; a failed insert changes nothing |
| App.SwotApp.SignOut | src/App.tsx:284-291 | the user, analyses, selection, items and strategies are reset |

## Left out

- Network calls, authentication sessions and the `onAuthStateChange` subscription are foreign I/O. Each backend answer is a method parameter. Each request sent is a return value.
- `Outcome.Failed` covers both an error and a missing `data`. On an error, every handler only logs it. A missing `data` without an error is silently ignored, except in `loadExample`, which logs it too. In both cases the state does not change.
- The `Promise.all` dispatch of the reorder writes is concurrent and its completion order is unknown. The model returns the writes. `ApplyWrites` applies them in list order. Each write touches only rows with its own id. `WritesSetPositions` pins down the state after all the writes in list order. That every other completion order gives the same state is argued from this but not proved.
- The item and strategy inserts of `loadExample` are returned as requests. Their answers are only logged, so the model ignores them.
- The `useEffect` reloads are framework scheduling. The loads are explicit methods instead: `LoadAnalyses`, `LoadItems` and `LoadStrategies`.
- The server-side ordering of the loaded lists (`order('created_at')`, `order('order_index')`) happens in the backend. The loaded list is taken as given.
- Handlers in the source read the state captured by the last render. The model's methods read the current fields, so interleavings with stale closures are not modelled.
- PDF export depends on `html2canvas` and `jsPDF`, and uses floating-point page arithmetic.
- Dates are clock- and locale-dependent:
  - the export's date line is an input string;
  - the `Date.now()` download file name and `formatDate` are not modelled.
- The download through a DOM link is browser I/O and is not modelled.
- The browser `confirm` dialog is a boolean input of `DeleteRequest`.
- Rendering is not modelled:
  - colours, icons and card descriptions;
  - framer-motion, recharts and dark-mode detection;
  - `SortableSwotItem`, `Auth`;
  - the `createClient` placeholder fallback.
- The Enter-key shortcut of the item form only calls `handleAdd`, which is modelled.
- `handleDragOver` returns without changing anything.
- `ExportButton`: text containing a line feed is modelled as one line. This changes nothing about the text, because each line is written followed by "\n". But a title, description, item or strategy that itself contains a line feed adds lines to the downloaded file that the line list does not have. For example, an item "a\nSTRATÉGIES" puts a "STRATÉGIES" line in the file even when there are no strategies.
- ExportButton.HeaderInitials: holds for the model's list of lines only, not for every line of the downloaded file (see the `ExportButton` line).
- ExportButton.BodyInitials: holds for the model's list of lines only, not for every line of the downloaded file (see the `ExportButton` line).
- ExportButton.DescriptionLineIffDescription: holds for the model's list of lines only, not for every line of the downloaded file (see the `ExportButton` line).
- ExportButton.StrategiesPartIffStrategies: holds for the model's list of lines only, not for every line of the downloaded file (see the `ExportButton` line).
- SwotStats.Score: computed in exact integer arithmetic. The source divides in floating point first, so the model does not capture a float rounding error at an exact half.
- The trim helpers model `String.prototype.trim` with the ECMAScript whitespace and line-terminator set written out, not with an abstract predicate.
