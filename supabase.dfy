/** The hosted backend's configuration check and the table types of the
    three record kinds: analyses, items and strategies (src/lib/supabase.ts). */
module Supabase {

  datatype Option<+T> = None | Some(value: T)

  /** The answer to one request sent to the hosted backend. `Failed` covers
      both an error and an answer without data: every caller only logs
      those and changes nothing. */
  datatype Outcome<+T> = Returned(data: T) | Failed

  // ---------------------------------------------------------------------
  // Configuration

  /** `import.meta.env.X || ''`: an unset variable reads as the empty string. */
  function EnvOrEmpty(v: Option<string>): string
  {
    match v
    case Some(s) => s
    case None => ""
  }

  /** JavaScript truthiness of a string: only the empty string is falsy. */
  predicate Truthy(s: string)
  {
    s != ""
  }

  /** JavaScript `a && b` on two strings: `a` when it is falsy, else `b`. */
  function JsAnd(a: string, b: string): string
  {
    if Truthy(a) then b else a
  }

  /** `isSupabaseConfigured = Boolean(supabaseUrl && supabaseAnonKey)`. */
  function IsConfigured(urlEnv: Option<string>, keyEnv: Option<string>): (r: bool)
    ensures r <==> urlEnv.Some? && urlEnv.value != "" && keyEnv.Some? && keyEnv.value != ""
  {
    Truthy(JsAnd(EnvOrEmpty(urlEnv), EnvOrEmpty(keyEnv)))
  }

  // ---------------------------------------------------------------------
  // Enumerations stored as text columns

  datatype Category = Strength | Weakness | Opportunity | Threat

  datatype StrategyType = SO | WO | ST | WT

  /** The text a category is stored as. */
  function CategoryName(c: Category): string
  {
    match c
    case Strength => "strength"
    case Weakness => "weakness"
    case Opportunity => "opportunity"
    case Threat => "threat"
  }

  /** Reads a stored category; any other text is not a category. */
  function ParseCategory(s: string): (r: Option<Category>)
    ensures r.Some? <==> s in {"strength", "weakness", "opportunity", "threat"}
    ensures r.Some? ==> CategoryName(r.value) == s
  {
    if s == "strength" then Some(Strength)
    else if s == "weakness" then Some(Weakness)
    else if s == "opportunity" then Some(Opportunity)
    else if s == "threat" then Some(Threat)
    else None
  }

  lemma CategoryNameRoundTrip(c: Category)
    ensures ParseCategory(CategoryName(c)) == Some(c)
  {
  }

  /** The text a strategy type is stored as. */
  function StrategyTypeName(t: StrategyType): string
  {
    match t
    case SO => "SO"
    case WO => "WO"
    case ST => "ST"
    case WT => "WT"
  }

  /** Reads a stored strategy type; any other text is not a strategy type. */
  function ParseStrategyType(s: string): (r: Option<StrategyType>)
    ensures r.Some? <==> s in {"SO", "WO", "ST", "WT"}
    ensures r.Some? ==> StrategyTypeName(r.value) == s
  {
    if s == "SO" then Some(SO)
    else if s == "WO" then Some(WO)
    else if s == "ST" then Some(ST)
    else if s == "WT" then Some(WT)
    else None
  }

  lemma StrategyTypeNameRoundTrip(t: StrategyType)
    ensures ParseStrategyType(StrategyTypeName(t)) == Some(t)
  {
  }

  // ---------------------------------------------------------------------
  // swot_analyses

  datatype AnalysisRow = AnalysisRow(
    id: string, title: string, description: string,
    createdAt: string, updatedAt: string, userId: string)

  /** Fields of a new analysis; the optional ones are filled by the backend. */
  datatype AnalysisInsert = AnalysisInsert(
    id: Option<string>, title: string, description: Option<string>,
    createdAt: Option<string>, updatedAt: Option<string>, userId: string)

  datatype AnalysisUpdate = AnalysisUpdate(
    id: Option<string>, title: Option<string>, description: Option<string>,
    updatedAt: Option<string>)

  function Patch(current: string, v: Option<string>): string
  {
    if v.Some? then v.value else current
  }

  /** A partial update of an analysis row: the owner and creation time cannot be patched. */
  function ApplyAnalysisUpdate(row: AnalysisRow, u: AnalysisUpdate): (r: AnalysisRow)
    ensures r.userId == row.userId && r.createdAt == row.createdAt
    ensures u.id.Some? ==> r.id == u.id.value
    ensures u.id.None? ==> r.id == row.id
    ensures u.title.Some? ==> r.title == u.title.value
    ensures u.title.None? ==> r.title == row.title
    ensures u.description.Some? ==> r.description == u.description.value
    ensures u.description.None? ==> r.description == row.description
    ensures u.updatedAt.Some? ==> r.updatedAt == u.updatedAt.value
    ensures u.updatedAt.None? ==> r.updatedAt == row.updatedAt
    ensures u == AnalysisUpdate(None, None, None, None) ==> r == row
  {
    AnalysisRow(Patch(row.id, u.id), Patch(row.title, u.title), Patch(row.description, u.description),
                row.createdAt, Patch(row.updatedAt, u.updatedAt), row.userId)
  }

  // ---------------------------------------------------------------------
  // swot_items

  datatype ItemRow = ItemRow(
    id: string, analysisId: string, category: Category,
    content: string, createdAt: string, orderIndex: int)

  datatype ItemInsert = ItemInsert(
    id: Option<string>, analysisId: string, category: Category,
    content: string, createdAt: Option<string>, orderIndex: Option<int>)

  /** The only fields of an item that an update may carry. */
  datatype ItemUpdate = ItemUpdate(content: Option<string>, orderIndex: Option<int>)

  /** A partial update of an item row: the category (like the id, the owning
      analysis and the creation time) is never written by an update. */
  function ApplyItemUpdate(row: ItemRow, u: ItemUpdate): (r: ItemRow)
    ensures r.(content := row.content, orderIndex := row.orderIndex) == row
    ensures r.category == row.category
    ensures u.content.None? ==> r.content == row.content
    ensures u.orderIndex.None? ==> r.orderIndex == row.orderIndex
    ensures u.content.Some? ==> r.content == u.content.value
    ensures u.orderIndex.Some? ==> r.orderIndex == u.orderIndex.value
  {
    var withContent := if u.content.Some? then row.(content := u.content.value) else row;
    if u.orderIndex.Some? then withContent.(orderIndex := u.orderIndex.value) else withContent
  }

  // ---------------------------------------------------------------------
  // swot_strategies

  datatype StrategyRow = StrategyRow(
    id: string, analysisId: string, kind: StrategyType,
    description: string, createdAt: string)

  datatype StrategyInsert = StrategyInsert(
    id: Option<string>, analysisId: string, kind: StrategyType,
    description: string, createdAt: Option<string>)

  /** The only field of a strategy that an update may carry. */
  datatype StrategyUpdate = StrategyUpdate(description: Option<string>)

  function ApplyStrategyUpdate(row: StrategyRow, u: StrategyUpdate): (r: StrategyRow)
    ensures r.(description := row.description) == row
    ensures r.description == Patch(row.description, u.description)
  {
    match u.description
    case Some(d) => row.(description := d)
    case None => row
  }
}
