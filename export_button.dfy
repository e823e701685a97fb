/** The plain-text export of an analysis (src/components/ExportButton.tsx,
    `handleExportTxt`). The text is specified as a list of lines, each
    followed by a line feed; the export date is an input. */
module ExportButton {
  import opened Supabase
  import opened Strings
  import opened Categories

  /** `categoryLabels`. */
  function CategoryLabel(c: Category): string
  {
    match c
    case Strength => "Forces (Strengths)"
    case Weakness => "Faiblesses (Weaknesses)"
    case Opportunity => "Opportunités (Opportunities)"
    case Threat => "Menaces (Threats)"
  }

  /** `strategyLabels`. */
  function StrategyLabel(t: StrategyType): string
  {
    match t
    case SO => "Maxi-Maxi (Forces + Opportunités)"
    case WO => "Mini-Maxi (Faiblesses + Opportunités)"
    case ST => "Maxi-Mini (Forces + Menaces)"
    case WT => "Mini-Mini (Faiblesses + Menaces)"
  }

  /** The order in which the export walks the categories and the strategy types. */
  function CategoryOrder(): seq<Category> { [Strength, Weakness, Opportunity, Threat] }
  function TypeOrder(): seq<StrategyType> { [SO, WO, ST, WT] }

  function Bullet(text: string): string { "  • " + text }

  function ItemBullets(xs: seq<ItemRow>): (r: seq<string>)
  {
    seq(|xs|, i requires 0 <= i < |xs| => Bullet(xs[i].content))
  }

  function StrategyBullets(xs: seq<StrategyRow>): (r: seq<string>)
  {
    seq(|xs|, i requires 0 <= i < |xs| => Bullet(xs[i].description))
  }

  /** The banner, the title, the optional description and the date. */
  function Header(title: string, description: string, date: string): seq<string>
  {
    ["ANALYSE SWOT", Repeat('=', 50), "", "Titre: " + title]
    + (if description != "" then ["Description: " + description] else [])
    + ["Date: " + date, ""]
  }

  /** The heading of the matrix part. */
  function MatrixHeading(): seq<string> { ["MATRICE SWOT", Repeat('-', 50), ""] }

  /** A section: the label and a colon, then the bullets, or the
      placeholder when there are none, then a blank line. */
  function Section(heading: string, bullets: seq<string>, placeholder: string): seq<string>
  {
    [heading + ":"] + (if bullets == [] then [placeholder] else bullets) + [""]
  }

  /** The section of category `c`. */
  function CategorySection(items: seq<ItemRow>, c: Category): seq<string>
  {
    Section(CategoryLabel(c), ItemBullets(ItemsOf(items, c)), "  (Aucun élément)")
  }

  /** The section of strategy type `t`. */
  function StrategySection(strategies: seq<StrategyRow>, t: StrategyType): seq<string>
  {
    Section(StrategyLabel(t), StrategyBullets(StrategiesOf(strategies, t)), "  (Aucune stratégie)")
  }

  /** A section is its heading, then the placeholder alone when there are
      no bullets or else each bullet in order, then a blank line. */
  lemma SectionShape(heading: string, bullets: seq<string>, placeholder: string)
    ensures bullets == [] ==> Section(heading, bullets, placeholder) == [heading + ":", placeholder, ""]
    ensures bullets != [] ==>
      var r := Section(heading, bullets, placeholder);
      && |r| == |bullets| + 2 && r[0] == heading + ":" && r[1] == bullets[0] && r[|r| - 1] == ""
      && forall k :: 0 <= k < |bullets| ==> r[k + 1] == bullets[k]
  {
  }

  /** No bullet line is a placeholder: a bullet has its mark where the
      placeholders have an opening parenthesis. */
  lemma BulletIsNotPlaceholder(text: string, placeholder: string)
    requires |placeholder| > 2 && placeholder[2] == '('
    ensures Bullet(text) != placeholder
  {
    assert Bullet(text)[2] == '•';
  }

  /** A category's section is its label, then exactly the placeholder when
      the category is empty, and otherwise one bullet per item of the
      category, in list order. */
  lemma CategorySectionShape(items: seq<ItemRow>, c: Category)
    ensures ItemsOf(items, c) == [] <==>
      CategorySection(items, c) == [CategoryLabel(c) + ":", "  (Aucun élément)", ""]
    ensures ItemsOf(items, c) != [] ==>
      var r := CategorySection(items, c);
      && |r| == |ItemsOf(items, c)| + 2
      && r[0] == CategoryLabel(c) + ":" && r[|r| - 1] == ""
      && forall k :: 0 <= k < |ItemsOf(items, c)| ==> r[k + 1] == Bullet(ItemsOf(items, c)[k].content)
  {
    var xs := ItemsOf(items, c);
    SectionShape(CategoryLabel(c), ItemBullets(xs), "  (Aucun élément)");
    if xs != [] {
      BulletIsNotPlaceholder(xs[0].content, "  (Aucun élément)");
    }
  }

  /** A strategy type's section, likewise. */
  lemma StrategySectionShape(strategies: seq<StrategyRow>, t: StrategyType)
    ensures StrategiesOf(strategies, t) == [] <==>
      StrategySection(strategies, t) == [StrategyLabel(t) + ":", "  (Aucune stratégie)", ""]
    ensures StrategiesOf(strategies, t) != [] ==>
      var r := StrategySection(strategies, t);
      && |r| == |StrategiesOf(strategies, t)| + 2
      && r[0] == StrategyLabel(t) + ":" && r[|r| - 1] == ""
      && forall k :: 0 <= k < |StrategiesOf(strategies, t)| ==>
           r[k + 1] == Bullet(StrategiesOf(strategies, t)[k].description)
  {
    var xs := StrategiesOf(strategies, t);
    SectionShape(StrategyLabel(t), StrategyBullets(xs), "  (Aucune stratégie)");
    if xs != [] {
      BulletIsNotPlaceholder(xs[0].description, "  (Aucune stratégie)");
    }
  }

  /** The sections of the categories `cs`, in the order of `cs`. */
  function CategorySections(items: seq<ItemRow>, cs: seq<Category>): seq<string>
  {
    if cs == [] then [] else CategorySections(items, cs[..|cs| - 1]) + CategorySection(items, cs[|cs| - 1])
  }

  function StrategySections(strategies: seq<StrategyRow>, ts: seq<StrategyType>): seq<string>
  {
    if ts == [] then [] else StrategySections(strategies, ts[..|ts| - 1]) + StrategySection(strategies, ts[|ts| - 1])
  }

  /** The heading of the strategies part. */
  function StrategiesHeading(): seq<string> { ["", "STRATÉGIES", Repeat('-', 50), ""] }

  /** The matrix part: its heading and the four category sections. */
  function MatrixLines(items: seq<ItemRow>): seq<string>
  {
    MatrixHeading() + CategorySections(items, CategoryOrder())
  }

  /** The strategies part: its heading and the four type sections. */
  function StrategyLines(strategies: seq<StrategyRow>): seq<string>
  {
    StrategiesHeading() + StrategySections(strategies, TypeOrder())
  }

  /** The whole export, line by line. */
  function ExportLines(title: string, description: string, date: string,
                       items: seq<ItemRow>, strategies: seq<StrategyRow>): seq<string>
  {
    Header(title, description, date) + MatrixLines(items)
    + (if |strategies| > 0 then StrategyLines(strategies) else [])
  }

  function ExportText(title: string, description: string, date: string,
                      items: seq<ItemRow>, strategies: seq<StrategyRow>): string
  {
    Render(ExportLines(title, description, date, items, strategies))
  }

  // ---------------------------------------------------------------------
  // The serialiser

  /** Text holding the first `k` lines of `lines`, followed by line `k`,
      holds the first `k + 1`. */
  lemma ExtendText(lines: seq<string>, k: nat)
    requires k < |lines|
    ensures Render(lines[..k]) + (lines[k] + "\n") == Render(lines[..k + 1])
  {
    assert lines[..k + 1][..k] == lines[..k];
  }

  /** The header statements of `handleExportTxt`; each `+=` of a text
      ending in two line feeds appends a line and an empty line. */
  method WriteHeader(title: string, description: string, date: string) returns (content: string)
    ensures content == Render(Header(title, description, date))
  {
    ghost var lines, k := Header(title, description, date), 0;
    content := "";
    ExtendText(lines, k);
    content, k := content + ("ANALYSE SWOT" + "\n"), k + 1;
    ExtendText(lines, k);
    content, k := content + (Repeat('=', 50) + "\n"), k + 1;
    ExtendText(lines, k);
    content, k := content + ("" + "\n"), k + 1;
    ExtendText(lines, k);
    content, k := content + ("Titre: " + title + "\n"), k + 1;
    if description != "" {
      ExtendText(lines, k);
      content, k := content + ("Description: " + description + "\n"), k + 1;
    }
    ExtendText(lines, k);
    content, k := content + ("Date: " + date + "\n"), k + 1;
    ExtendText(lines, k);
    content, k := content + ("" + "\n"), k + 1;
    assert lines[..k] == lines;
  }

  /** A section's text is its heading line, the text of its body and a
      blank line. */
  lemma SectionText(heading: string, body: seq<string>)
    ensures Render([heading + ":"] + body + [""]) == (heading + ":" + "\n") + Render(body) + ("" + "\n")
  {
    RenderAppend([heading + ":"], body);
    RenderAppend([heading + ":"] + body, [""]);
    assert [heading + ":"][..0] == [];
    assert [""][..0] == [];
  }

  /** The inner `forEach` over a category's items: one bullet line each. */
  method WriteItemBullets(xs: seq<ItemRow>) returns (text: string)
    ensures text == Render(ItemBullets(xs))
  {
    ghost var lines := ItemBullets(xs);
    text := "";
    for j := 0 to |xs|
      invariant text == Render(lines[..j])
    {
      ExtendText(lines, j);
      text := text + ("  • " + xs[j].content + "\n");
    }
    assert lines[..|xs|] == lines;
  }

  /** The inner `forEach` over a type's strategies: one bullet line each. */
  method WriteStrategyBullets(xs: seq<StrategyRow>) returns (text: string)
    ensures text == Render(StrategyBullets(xs))
  {
    ghost var lines := StrategyBullets(xs);
    text := "";
    for j := 0 to |xs|
      invariant text == Render(lines[..j])
    {
      ExtendText(lines, j);
      text := text + ("  • " + xs[j].description + "\n");
    }
    assert lines[..|xs|] == lines;
  }

  /** The text one pass of the `forEach` over the categories adds to
      `content` for category `c`. */
  method WriteCategory(items: seq<ItemRow>, c: Category) returns (text: string)
    ensures text == Render(CategorySection(items, c))
  {
    var categoryItems := ItemsOf(items, c);
    ghost var bullets := ItemBullets(categoryItems);
    ghost var body := if bullets == [] then ["  (Aucun élément)"] else bullets;
    var heading := CategoryLabel(c);
    var middle: string;
    if |categoryItems| == 0 {
      assert bullets == [];
      middle := "  (Aucun élément)" + "\n";
      RenderOne("  (Aucun élément)");
    } else {
      assert |bullets| == |categoryItems|;
      middle := WriteItemBullets(categoryItems);
    }
    text := heading + ":" + "\n" + middle + ("" + "\n");
    SectionText(heading, body);
  }

  /** The text one pass of the `forEach` over the strategy types adds to
      `content` for type `t`. */
  method WriteStrategyType(strategies: seq<StrategyRow>, t: StrategyType) returns (text: string)
    ensures text == Render(StrategySection(strategies, t))
  {
    var typeStrategies := StrategiesOf(strategies, t);
    ghost var bullets := StrategyBullets(typeStrategies);
    ghost var body := if bullets == [] then ["  (Aucune stratégie)"] else bullets;
    var heading := StrategyLabel(t);
    var middle: string;
    if |typeStrategies| == 0 {
      assert bullets == [];
      middle := "  (Aucune stratégie)" + "\n";
      RenderOne("  (Aucune stratégie)");
    } else {
      assert |bullets| == |typeStrategies|;
      middle := WriteStrategyBullets(typeStrategies);
    }
    text := heading + ":" + "\n" + middle + ("" + "\n");
    SectionText(heading, body);
  }

  /** Rendering one more category's section appends its text. */
  lemma RenderCategorySectionsStep(items: seq<ItemRow>, cs: seq<Category>, k: nat)
    requires k < |cs|
    ensures Render(CategorySections(items, cs[..k + 1]))
         == Render(CategorySections(items, cs[..k])) + Render(CategorySection(items, cs[k]))
  {
    assert cs[..k + 1][..k] == cs[..k];
    RenderAppend(CategorySections(items, cs[..k]), CategorySection(items, cs[k]));
  }

  /** The `forEach` over the four categories. */
  method WriteCategories(items: seq<ItemRow>) returns (text: string)
    ensures text == Render(CategorySections(items, CategoryOrder()))
  {
    var order := CategoryOrder();
    text := "";
    for k := 0 to 4
      invariant text == Render(CategorySections(items, order[..k]))
    {
      var section := WriteCategory(items, order[k]);
      RenderCategorySectionsStep(items, order, k);
      text := text + section;
    }
    assert order[..4] == order;
  }

  /** The matrix part: its heading, then the four category sections. */
  method WriteMatrix(items: seq<ItemRow>) returns (text: string)
    ensures text == Render(MatrixLines(items))
  {
    ghost var heading, h := MatrixHeading(), 0;
    text := "";
    ExtendText(heading, h);
    text, h := text + ("MATRICE SWOT" + "\n"), h + 1;
    ExtendText(heading, h);
    text, h := text + (Repeat('-', 50) + "\n"), h + 1;
    ExtendText(heading, h);
    text, h := text + ("" + "\n"), h + 1;
    assert heading[..h] == heading;
    var sections := WriteCategories(items);
    RenderAppend(heading, CategorySections(items, CategoryOrder()));
    text := text + sections;
  }

  /** Rendering one more strategy type's section appends its text. */
  lemma RenderStrategySectionsStep(strategies: seq<StrategyRow>, ts: seq<StrategyType>, k: nat)
    requires k < |ts|
    ensures Render(StrategySections(strategies, ts[..k + 1]))
         == Render(StrategySections(strategies, ts[..k])) + Render(StrategySection(strategies, ts[k]))
  {
    assert ts[..k + 1][..k] == ts[..k];
    RenderAppend(StrategySections(strategies, ts[..k]), StrategySection(strategies, ts[k]));
  }

  /** The `forEach` over the four strategy types. */
  method WriteStrategyTypes(strategies: seq<StrategyRow>) returns (text: string)
    ensures text == Render(StrategySections(strategies, TypeOrder()))
  {
    var types := TypeOrder();
    text := "";
    for k := 0 to 4
      invariant text == Render(StrategySections(strategies, types[..k]))
    {
      var section := WriteStrategyType(strategies, types[k]);
      RenderStrategySectionsStep(strategies, types, k);
      text := text + section;
    }
    assert types[..4] == types;
  }

  /** The strategies part: its heading, then the four type sections. */
  method WriteStrategies(strategies: seq<StrategyRow>) returns (text: string)
    ensures text == Render(StrategyLines(strategies))
  {
    ghost var heading, h := StrategiesHeading(), 0;
    text := "";
    ExtendText(heading, h);
    text, h := text + ("" + "\n"), h + 1;
    ExtendText(heading, h);
    text, h := text + ("STRATÉGIES" + "\n"), h + 1;
    ExtendText(heading, h);
    text, h := text + (Repeat('-', 50) + "\n"), h + 1;
    ExtendText(heading, h);
    text, h := text + ("" + "\n"), h + 1;
    assert heading[..h] == heading;
    var sections := WriteStrategyTypes(strategies);
    RenderAppend(heading, StrategySections(strategies, TypeOrder()));
    text := text + sections;
  }

  /** `handleExportTxt` up to the download: `content` grows by `+=` through
      the header, the matrix part and, when there are strategies, the
      strategies part. */
  method ExportTxt(title: string, description: string, date: string,
                   items: seq<ItemRow>, strategies: seq<StrategyRow>) returns (content: string)
    ensures content == ExportText(title, description, date, items, strategies)
  {
    content := WriteHeader(title, description, date);
    var matrix := WriteMatrix(items);
    RenderAppend(Header(title, description, date), MatrixLines(items));
    content := content + matrix;
    ghost var lines := Header(title, description, date) + MatrixLines(items);
    if |strategies| > 0 {
      var part := WriteStrategies(strategies);
      RenderAppend(lines, StrategyLines(strategies));
      content := content + part;
    } else {
      assert lines + [] == lines;
    }
  }

  // ---------------------------------------------------------------------
  // What the export promises

  /** The text opens with the banner line and a rule of 50 `=`. */
  lemma ExportStartsWithBanner(title: string, description: string, date: string,
                               items: seq<ItemRow>, strategies: seq<StrategyRow>)
    ensures ("ANALYSE SWOT" + "\n") + (Repeat('=', 50) + "\n") <= ExportText(title, description, date, items, strategies)
  {
    var lines := ExportLines(title, description, date, items, strategies);
    var header := Header(title, description, date);
    assert lines[0] == header[0] && lines[1] == header[1];
    assert lines[..2] == ["ANALYSE SWOT", Repeat('=', 50)];
    RenderPrefix(lines, 2);
    RenderTwo("ANALYSE SWOT", Repeat('=', 50));
  }

  /** The first character of a line, a space for an empty line. */
  function Initial(line: string): char
  {
    if line == "" then ' ' else line[0]
  }

  predicate IsDescriptionLine(line: string)
  {
    |line| >= 13 && line[..13] == "Description: "
  }

  /** A description line starts with `De`. */
  lemma DescriptionLineStart(line: string)
    requires IsDescriptionLine(line)
    ensures Initial(line) == 'D' && line[1] == 'e'
  {
    assert line[..13][0] == line[0] && line[..13][1] == line[1];
  }

  /** Every line of a section is its heading, its placeholder, a bullet or blank. */
  lemma SectionLines(heading: string, bullets: seq<string>, placeholder: string)
    ensures forall line :: line in Section(heading, bullets, placeholder) ==>
      line == heading + ":" || line == placeholder || line == "" || line in bullets
  {
  }

  /** Every bullet line starts with a space. */
  lemma BulletsInitial(bullets: seq<string>, texts: seq<string>)
    requires |bullets| == |texts| && forall k :: 0 <= k < |bullets| ==> bullets[k] == Bullet(texts[k])
    ensures forall line :: line in bullets ==> Initial(line) == ' '
  {
    forall line | line in bullets
      ensures Initial(line) == ' '
    {
      var k :| 0 <= k < |bullets| && bullets[k] == line;
      assert line[0] == ' ';
    }
  }

  /** Every line of a category section starts with the first letter of a
      category label, with a space (bullets, placeholder) or is empty. */
  lemma CategorySectionInitials(items: seq<ItemRow>, c: Category)
    ensures forall line :: line in CategorySection(items, c) ==>
      Initial(line) == 'F' || Initial(line) == 'O' || Initial(line) == 'M' || Initial(line) == ' '
  {
    var xs := ItemsOf(items, c);
    var bullets := ItemBullets(xs);
    SectionLines(CategoryLabel(c), bullets, "  (Aucun élément)");
    BulletsInitial(bullets, seq(|xs|, i requires 0 <= i < |xs| => xs[i].content));
    assert (CategoryLabel(c) + ":")[0] == CategoryLabel(c)[0];
  }

  /** Every line of a strategy section starts with `M`, the first letter of
      every strategy label, or with a space, or is empty. */
  lemma StrategySectionInitials(strategies: seq<StrategyRow>, t: StrategyType)
    ensures forall line :: line in StrategySection(strategies, t) ==> Initial(line) == 'M' || Initial(line) == ' '
  {
    var xs := StrategiesOf(strategies, t);
    var bullets := StrategyBullets(xs);
    SectionLines(StrategyLabel(t), bullets, "  (Aucune stratégie)");
    BulletsInitial(bullets, seq(|xs|, i requires 0 <= i < |xs| => xs[i].description));
    assert (StrategyLabel(t) + ":")[0] == StrategyLabel(t)[0];
  }

  lemma {:induction false} CategorySectionsInitials(items: seq<ItemRow>, cs: seq<Category>)
    ensures forall line :: line in CategorySections(items, cs) ==>
      Initial(line) == 'F' || Initial(line) == 'O' || Initial(line) == 'M' || Initial(line) == ' '
  {
    if cs != [] {
      CategorySectionsInitials(items, cs[..|cs| - 1]);
      CategorySectionInitials(items, cs[|cs| - 1]);
    }
  }

  lemma {:induction false} StrategySectionsInitials(strategies: seq<StrategyRow>, ts: seq<StrategyType>)
    ensures forall line :: line in StrategySections(strategies, ts) ==> Initial(line) == 'M' || Initial(line) == ' '
  {
    if ts != [] {
      StrategySectionsInitials(strategies, ts[..|ts| - 1]);
      StrategySectionInitials(strategies, ts[|ts| - 1]);
    }
  }

  /** Outside the header, no line starts with `D`, and outside the
      strategies part none starts with `S`. */
  lemma BodyInitials(items: seq<ItemRow>, strategies: seq<StrategyRow>)
    ensures forall line :: line in MatrixLines(items) ==> Initial(line) != 'D' && Initial(line) != 'S'
    ensures forall line :: line in StrategyLines(strategies) ==> Initial(line) != 'D'
  {
    CategorySectionsInitials(items, CategoryOrder());
    StrategySectionsInitials(strategies, TypeOrder());
  }

  /** In the header, only the description line starts with `D` followed
      by anything but `a` (the date line), and no line starts with `S`. */
  lemma HeaderInitials(title: string, description: string, date: string)
    ensures forall line :: line in Header(title, description, date) ==>
      && Initial(line) != 'S'
      && (Initial(line) == 'D' && !(|line| > 1 && line[1] == 'a') ==>
            description != "" && line == "Description: " + description)
  {
    var header := Header(title, description, date);
    forall line | line in header
      ensures Initial(line) != 'S'
      ensures Initial(line) == 'D' && !(|line| > 1 && line[1] == 'a') ==>
            description != "" && line == "Description: " + description
    {
      var k :| 0 <= k < |header| && header[k] == line;
      if description == "" {
        assert k < 6;
      } else {
        assert k < 7;
      }
    }
  }

  /** A "Description: " line is written exactly when the description is not
      empty, and it is the only line of that form. */
  lemma DescriptionLineIffDescription(title: string, description: string, date: string,
                                      items: seq<ItemRow>, strategies: seq<StrategyRow>)
    ensures description != "" ==> "Description: " + description in ExportLines(title, description, date, items, strategies)
    ensures forall line :: (line in ExportLines(title, description, date, items, strategies) && IsDescriptionLine(line)
      ==> description != "" && line == "Description: " + description)
  {
    var header, matrix := Header(title, description, date), MatrixLines(items);
    var tail := if |strategies| > 0 then StrategyLines(strategies) else [];
    var lines := ExportLines(title, description, date, items, strategies);
    assert lines == header + matrix + tail;
    if description != "" {
      assert header[4] == "Description: " + description;
      assert header[4] in lines;
    }
    forall line | line in lines && IsDescriptionLine(line)
      ensures description != "" && line == "Description: " + description
    {
      DescriptionLineStart(line);
      if line in header {
        HeaderInitials(title, description, date);
      } else if line in matrix {
        BodyInitials(items, strategies);
        assert false;
      } else {
        assert line in tail;
        BodyInitials(items, strategies);
        assert false;
      }
    }
  }

  /** The "STRATÉGIES" part is present exactly when there are strategies. */
  lemma StrategiesPartIffStrategies(title: string, description: string, date: string,
                                    items: seq<ItemRow>, strategies: seq<StrategyRow>)
    ensures "STRATÉGIES" in ExportLines(title, description, date, items, strategies) <==> |strategies| > 0
  {
    var header, matrix := Header(title, description, date), MatrixLines(items);
    var lines := ExportLines(title, description, date, items, strategies);
    if |strategies| > 0 {
      assert lines == header + matrix + StrategyLines(strategies);
      assert StrategyLines(strategies)[1] == "STRATÉGIES";
      assert StrategyLines(strategies)[1] in lines;
    } else {
      assert lines == header + matrix;
      assert Initial("STRATÉGIES") == 'S';
      if "STRATÉGIES" in header {
        HeaderInitials(title, description, date);
        assert false;
      }
      if "STRATÉGIES" in matrix {
        BodyInitials(items, strategies);
        assert false;
      }
    }
  }

  /** The matrix part lists the categories in the order strength, weakness,
      opportunity, threat. */
  lemma MatrixInCategoryOrder(items: seq<ItemRow>)
    ensures MatrixLines(items) == MatrixHeading()
      + (CategorySection(items, Strength) + CategorySection(items, Weakness)
         + CategorySection(items, Opportunity) + CategorySection(items, Threat))
  {
    var order := CategoryOrder();
    var s3, s2, s1 := [Strength, Weakness, Opportunity], [Strength, Weakness], [Strength];
    assert order[..3] == s3 && s3[..2] == s2 && s2[..1] == s1 && s1[..0] == [];
    assert CategorySections(items, s1) == CategorySection(items, Strength);
    assert CategorySections(items, s2) == CategorySections(items, s1) + CategorySection(items, Weakness);
    assert CategorySections(items, s3) == CategorySections(items, s2) + CategorySection(items, Opportunity);
    assert CategorySections(items, order) == CategorySections(items, s3) + CategorySection(items, Threat);
  }

  /** The strategies part lists the types in the order SO, WO, ST, WT. */
  lemma StrategiesInTypeOrder(strategies: seq<StrategyRow>)
    ensures StrategyLines(strategies) == StrategiesHeading()
      + (StrategySection(strategies, SO) + StrategySection(strategies, WO)
         + StrategySection(strategies, ST) + StrategySection(strategies, WT))
  {
    var order := TypeOrder();
    var s3, s2, s1 := [SO, WO, ST], [SO, WO], [SO];
    assert order[..3] == s3 && s3[..2] == s2 && s2[..1] == s1 && s1[..0] == [];
    assert StrategySections(strategies, s1) == StrategySection(strategies, SO);
    assert StrategySections(strategies, s2) == StrategySections(strategies, s1) + StrategySection(strategies, WO);
    assert StrategySections(strategies, s3) == StrategySections(strategies, s2) + StrategySection(strategies, ST);
    assert StrategySections(strategies, order) == StrategySections(strategies, s3) + StrategySection(strategies, WT);
  }

  /** Every item is exported as a bullet line. */
  lemma EveryItemExported(title: string, description: string, date: string,
                          items: seq<ItemRow>, strategies: seq<StrategyRow>)
    ensures forall x :: x in items ==> Bullet(x.content) in ExportLines(title, description, date, items, strategies)
  {
    MatrixInCategoryOrder(items);
    forall x | x in items
      ensures Bullet(x.content) in ExportLines(title, description, date, items, strategies)
    {
      var xs := ItemsOf(items, x.category);
      var k :| 0 <= k < |xs| && xs[k] == x;
      assert ItemBullets(xs)[k] == Bullet(x.content);
      assert Bullet(x.content) in CategorySection(items, x.category);
      assert Bullet(x.content) in MatrixLines(items);
    }
  }

  /** When there are strategies, every one is exported as a bullet line. */
  lemma EveryStrategyExported(title: string, description: string, date: string,
                              items: seq<ItemRow>, strategies: seq<StrategyRow>)
    requires |strategies| > 0
    ensures forall x :: x in strategies ==> Bullet(x.description) in ExportLines(title, description, date, items, strategies)
  {
    StrategiesInTypeOrder(strategies);
    forall x | x in strategies
      ensures Bullet(x.description) in ExportLines(title, description, date, items, strategies)
    {
      var xs := StrategiesOf(strategies, x.kind);
      var k :| 0 <= k < |xs| && xs[k] == x;
      assert StrategyBullets(xs)[k] == Bullet(x.description);
      assert Bullet(x.description) in StrategySection(strategies, x.kind);
      assert Bullet(x.description) in StrategyLines(strategies);
    }
  }
}