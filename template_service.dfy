/**
 * `TemplateService`: the fixed catalogue of résumé templates and the queries
 * over it (listing, lookup, categories, search, recommendations, and the
 * blank content a new résumé starts from). The catalogue is a table of
 * templates in the order the service defines them; each operation takes the
 * table, and `Catalogue` is the one the service builds.
 */
module TemplateService {
  import opened Wrappers
  import opened Text
  import opened Basics
  import opened ResumeModel

  datatype TemplateSection = TemplateSection(kind: string, name: string, required: bool, order: nat)

  datatype Styling = Styling(
    fontFamily: string,
    fontSize: string,
    lineSpacing: string,
    margins: string,
    primary: string,
    secondary: string,
    accent: string)

  datatype Template = Template(
    id: string,
    name: string,
    description: string,
    category: string,
    features: seq<string>,
    previewUrl: string,
    isPremium: bool,
    sections: seq<TemplateSection>,
    styling: Styling)

  /** A template as listed: everything but its sections and styling. */
  datatype TemplateInfo = TemplateInfo(
    id: string,
    name: string,
    description: string,
    category: string,
    features: seq<string>,
    previewUrl: string,
    isPremium: bool)

  function Info(t: Template): TemplateInfo
  {
    TemplateInfo(t.id, t.name, t.description, t.category, t.features, t.previewUrl, t.isPremium)
  }

  /** The three templates, keyed by their ids, in the service's order. */
  const Catalogue: seq<Template> := [
    Template("professional", "Professional",
      "Clean and professional layout suitable for corporate environments", "business",
      ["Clean layout", "Professional fonts", "Structured sections"],
      "/static/templates/professional_preview.png", false,
      [ TemplateSection("personal_info", "Personal Information", true, 1),
        TemplateSection("professional_summary", "Professional Summary", false, 2),
        TemplateSection("work_experience", "Work Experience", true, 3),
        TemplateSection("education", "Education", true, 4),
        TemplateSection("skills", "Skills", false, 5),
        TemplateSection("certifications", "Certifications", false, 6),
        TemplateSection("projects", "Projects", false, 7),
        TemplateSection("languages", "Languages", false, 8) ],
      Styling("Arial, sans-serif", "11pt", "1.2", "0.75in", "#2E4057", "#666666", "#2E4057")),
    Template("modern", "Modern",
      "Contemporary design with clean lines and modern typography", "creative",
      ["Modern design", "Color accents", "Visual hierarchy"],
      "/static/templates/modern_preview.png", true,
      [ TemplateSection("personal_info", "Personal Information", true, 1),
        TemplateSection("professional_summary", "Professional Summary", false, 2),
        TemplateSection("work_experience", "Experience", true, 3),
        TemplateSection("skills", "Core Skills", false, 4),
        TemplateSection("education", "Education", true, 5),
        TemplateSection("projects", "Key Projects", false, 6),
        TemplateSection("certifications", "Certifications", false, 7) ],
      Styling("Helvetica, sans-serif", "10pt", "1.3", "0.5in", "#1a365d", "#4a5568", "#3182ce")),
    Template("creative", "Creative",
      "Bold design for creative professionals and designers", "creative",
      ["Bold typography", "Creative layout", "Visual elements"],
      "/static/templates/creative_preview.png", true,
      [ TemplateSection("personal_info", "Contact", true, 1),
        TemplateSection("professional_summary", "About Me", false, 2),
        TemplateSection("skills", "Expertise", false, 3),
        TemplateSection("work_experience", "Experience", true, 4),
        TemplateSection("projects", "Portfolio", false, 5),
        TemplateSection("education", "Education", true, 6),
        TemplateSection("certifications", "Achievements", false, 7) ],
      Styling("Georgia, serif", "11pt", "1.4", "0.6in", "#2d3748", "#718096", "#e53e3e"))]

  /** Dictionary keys are distinct: no two templates share an id. */
  predicate UniqueIds(table: seq<Template>)
  {
    forall i, j | 0 <= i < j < |table| :: table[i].id != table[j].id
  }

  lemma CatalogueIdsUnique()
    ensures UniqueIds(Catalogue)
  {
  }

  // ---------------------------------------------------------------------------
  // Lookup

  /** `self.templates.get(template_id)`: the template with that id, if any. */
  function GetTemplate(table: seq<Template>, id: string): (r: Option<Template>)
    ensures r.Some? <==> exists t | t in table :: t.id == id
    ensures r.Some? ==> r.value in table && r.value.id == id
  {
    if table == [] then None
    else if table[0].id == id then Some(table[0])
    else GetTemplate(table[1..], id)
  }

  /** With distinct ids, the lookup finds the template stored under that id. */
  lemma {:induction false} GetTemplateFinds(table: seq<Template>, k: nat)
    requires UniqueIds(table) && k < |table|
    ensures GetTemplate(table, table[k].id) == Some(table[k])
  {
    if k > 0 {
      assert table[0].id != table[k].id;
      GetTemplateFinds(table[1..], k - 1);
    }
  }

  /** `validate_template_id`: whether the id is a key of the catalogue. */
  function ValidateTemplateId(table: seq<Template>, id: string): (ok: bool)
    ensures ok <==> GetTemplate(table, id).Some?
    ensures ok <==> id in set t | t in table :: t.id
  {
    exists t | t in table :: t.id == id
  }

  /** `get_template_sections`: the sections of a known template. */
  function GetTemplateSections(table: seq<Template>, id: string): (r: Option<seq<TemplateSection>>)
    ensures r.Some? <==> ValidateTemplateId(table, id)
    ensures r.Some? ==> r.value == GetTemplate(table, id).value.sections
  {
    match GetTemplate(table, id)
    case None => None
    case Some(t) => Some(t.sections)
  }

  /** `get_template_styling`: the styling of a known template. */
  function GetTemplateStyling(table: seq<Template>, id: string): (r: Option<Styling>)
    ensures r.Some? <==> ValidateTemplateId(table, id)
    ensures r.Some? ==> r.value == GetTemplate(table, id).value.styling
  {
    match GetTemplate(table, id)
    case None => None
    case Some(t) => Some(t.styling)
  }

  // ---------------------------------------------------------------------------
  // Listing

  /** Whether a listing that may or may not include premium templates shows `t`. */
  predicate Shown(t: Template, includePremium: bool)
  {
    includePremium || !t.isPremium
  }

  /** The listed templates, in catalogue order. */
  function Listed(table: seq<Template>, includePremium: bool): (r: seq<TemplateInfo>)
    ensures |r| <= |table|
    ensures includePremium ==> |r| == |table|
    ensures forall x | x in r :: includePremium || !x.isPremium
    ensures forall t | t in table :: Info(t) in r <==> Shown(t, includePremium)
  {
    if table == [] then []
    else
      var init, last := table[..|table| - 1], table[|table| - 1];
      assert table == init + [last];
      var rest := Listed(init, includePremium);
      if Shown(last, includePremium) then rest + [Info(last)] else rest
  }

  /** `get_all_templates`: one pass over the catalogue, skipping premium templates unless asked for. */
  method GetAllTemplates(table: seq<Template>, includePremium: bool) returns (out: seq<TemplateInfo>)
    ensures out == Listed(table, includePremium)
  {
    out := [];
    for i := 0 to |table|
      invariant out == Listed(table[..i], includePremium)
    {
      assert table[..i + 1][..i] == table[..i];
      if Shown(table[i], includePremium) {
        out := out + [Info(table[i])];
      }
    }
    assert table[..|table|] == table;
  }

  /** Of the catalogue, only the professional template is free. */
  lemma FreeCatalogue()
    ensures Listed(Catalogue, false) == [Info(Catalogue[0])]
    ensures |Listed(Catalogue, true)| == 3
  {
    assert Catalogue[..2][..1] == Catalogue[..1];
    assert Catalogue[..3] == Catalogue;
  }

  // ---------------------------------------------------------------------------
  // Categories

  /** A template as a category lists it. */
  datatype CategoryEntry = CategoryEntry(id: string, name: string, isPremium: bool)

  /** One category: its key, its display name, how many templates it holds and which. */
  datatype Category = Category(key: string, name: string, count: nat, templates: seq<CategoryEntry>)

  function Entry(t: Template): CategoryEntry
  {
    CategoryEntry(t.id, t.name, t.isPremium)
  }

  function UpperChar(c: char): char
  {
    if IsLowerLetter(c) then (c as int - 32) as char else c
  }

  /** `str.title()` on ASCII text: each letter after a non-letter upper-cased, every other letter lower-cased. */
  function TitleFrom(s: string, afterLetter: bool): (r: string)
    ensures |r| == |s|
    ensures s != [] && !afterLetter ==> r[0] == UpperChar(s[0])
  {
    if s == [] then []
    else [if afterLetter then LowerChar(s[0]) else UpperChar(s[0])] + TitleFrom(s[1..], IsLetter(s[0]))
  }

  function Title(s: string): string
  {
    TitleFrom(s, false)
  }

  /** The templates of category `key`, in catalogue order. */
  function EntriesIn(table: seq<Template>, key: string): seq<CategoryEntry>
  {
    if table == [] then []
    else
      var init, last := table[..|table| - 1], table[|table| - 1];
      EntriesIn(init, key) + (if last.category == key then [Entry(last)] else [])
  }

  /** The position of category `key`, if it is there. */
  function IndexOf(cats: seq<Category>, key: string): (r: Option<nat>)
    ensures r.Some? ==> r.value < |cats| && cats[r.value].key == key
    ensures r.None? ==> forall c | c in cats :: c.key != key
  {
    if cats == [] then None
    else if cats[|cats| - 1].key == key then Some(|cats| - 1)
    else IndexOf(cats[..|cats| - 1], key)
  }

  /** File one template: count it in its category, opening the category on first sight. */
  function AddTo(cats: seq<Category>, t: Template): seq<Category>
  {
    match IndexOf(cats, t.category)
    case None => cats + [Category(t.category, Title(t.category), 1, [Entry(t)])]
    case Some(i) =>
      cats[i := cats[i].(count := cats[i].count + 1, templates := cats[i].templates + [Entry(t)])]
  }

  /** The categories of `get_template_categories`, in order of first appearance. */
  function Categories(table: seq<Template>): seq<Category>
  {
    if table == [] then [] else AddTo(Categories(table[..|table| - 1]), table[|table| - 1])
  }

  function TotalCount(cats: seq<Category>): nat
  {
    if cats == [] then 0 else TotalCount(cats[..|cats| - 1]) + cats[|cats| - 1].count
  }

  function KeysOf(cats: seq<Category>): set<string>
  {
    set c | c in cats :: c.key
  }

  function CategoriesOf(table: seq<Template>): set<string>
  {
    set t | t in table :: t.category
  }

  /**
   * What the categories built from `table` satisfy: distinct keys, one per
   * category the templates use, each listing exactly that category's
   * templates in order and counting them.
   */
  predicate Grouping(cats: seq<Category>, table: seq<Template>)
  {
    && (forall i, j | 0 <= i < j < |cats| :: cats[i].key != cats[j].key)
    && KeysOf(cats) == CategoriesOf(table)
    && (forall c | c in cats :: c.templates == EntriesIn(table, c.key) && c.count == |c.templates|)
  }

  lemma {:induction false} TotalCountUpdate(cats: seq<Category>, i: nat, c: Category)
    requires i < |cats|
    ensures TotalCount(cats[i := c]) + cats[i].count == TotalCount(cats) + c.count
  {
    if i < |cats| - 1 {
      assert cats[i := c][..|cats| - 1] == cats[..|cats| - 1][i := c];
      TotalCountUpdate(cats[..|cats| - 1], i, c);
    } else {
      assert cats[i := c][..|cats| - 1] == cats[..|cats| - 1];
    }
  }

  /** Filing a template adds exactly one to the total count. */
  lemma AddToTotal(cats: seq<Category>, t: Template)
    ensures TotalCount(AddTo(cats, t)) == TotalCount(cats) + 1
  {
    match IndexOf(cats, t.category)
    case None =>
      assert (cats + [Category(t.category, Title(t.category), 1, [Entry(t)])])[..|cats|] == cats;
    case Some(i) =>
      TotalCountUpdate(cats, i, cats[i].(count := cats[i].count + 1, templates := cats[i].templates + [Entry(t)]));
  }

  lemma {:induction false} NoEntries(table: seq<Template>, key: string)
    requires key !in CategoriesOf(table)
    ensures EntriesIn(table, key) == []
  {
    if table != [] {
      assert CategoriesOf(table[..|table| - 1]) <= CategoriesOf(table);
      NoEntries(table[..|table| - 1], key);
    }
  }

  /** One more template adds its entry to its own category's list and to no other. */
  lemma EntriesStep(table: seq<Template>, t: Template, key: string)
    ensures EntriesIn(table + [t], key) == EntriesIn(table, key) + (if t.category == key then [Entry(t)] else [])
  {
    assert (table + [t])[..|table|] == table;
  }

  /** Filing a template of a category seen before keeps the grouping exact. */
  lemma AddExistingGrouping(cats: seq<Category>, table: seq<Template>, t: Template, i: nat)
    requires Grouping(cats, table)
    requires i < |cats| && cats[i].key == t.category
    ensures Grouping(cats[i := cats[i].(count := cats[i].count + 1, templates := cats[i].templates + [Entry(t)])], table + [t])
  {
    var next := table + [t];
    var updated := cats[i := cats[i].(count := cats[i].count + 1, templates := cats[i].templates + [Entry(t)])];
    assert cats[i] in cats;
    assert CategoriesOf(next) == CategoriesOf(table) + {t.category};
    assert KeysOf(updated) == KeysOf(cats) by {
      forall k | k in KeysOf(cats)
        ensures k in KeysOf(updated)
      {
        var j :| 0 <= j < |cats| && cats[j].key == k;
        assert updated[j].key == k;
      }
    }
    forall c | c in updated
      ensures c.templates == EntriesIn(next, c.key) && c.count == |c.templates|
    {
      var j :| 0 <= j < |updated| && updated[j] == c;
      assert cats[j] in cats;
      EntriesStep(table, t, c.key);
    }
  }

  /** Filing a template of a new category appends that category and keeps the grouping exact. */
  lemma AddNewGrouping(cats: seq<Category>, table: seq<Template>, t: Template)
    requires Grouping(cats, table)
    requires forall c | c in cats :: c.key != t.category
    ensures Grouping(cats + [Category(t.category, Title(t.category), 1, [Entry(t)])], table + [t])
  {
    var next := table + [t];
    var added := cats + [Category(t.category, Title(t.category), 1, [Entry(t)])];
    assert CategoriesOf(next) == CategoriesOf(table) + {t.category};
    assert KeysOf(added) == KeysOf(cats) + {t.category};
    NoEntries(table, t.category);
    forall c | c in added
      ensures c.templates == EntriesIn(next, c.key) && c.count == |c.templates|
    {
      EntriesStep(table, t, c.key);
    }
  }

  /** Filing the next template keeps the grouping exact. */
  lemma AddToGrouping(cats: seq<Category>, table: seq<Template>, t: Template)
    requires Grouping(cats, table)
    ensures Grouping(AddTo(cats, t), table + [t])
  {
    match IndexOf(cats, t.category)
    case None => AddNewGrouping(cats, table, t);
    case Some(i) => AddExistingGrouping(cats, table, t, i);
  }

  /** The categories built from any table group it exactly, and their counts add up to its size. */
  lemma {:induction false} CategoriesGroup(table: seq<Template>)
    ensures Grouping(Categories(table), table)
    ensures TotalCount(Categories(table)) == |table|
  {
    if table != [] {
      var init, last := table[..|table| - 1], table[|table| - 1];
      CategoriesGroup(init);
      assert table == init + [last];
      AddToGrouping(Categories(init), init, last);
      AddToTotal(Categories(init), last);
    }
  }

  /** `get_template_categories`: one pass over the catalogue, counting each template into its category. */
  method GetTemplateCategories(table: seq<Template>) returns (cats: seq<Category>)
    ensures cats == Categories(table)
    ensures Grouping(cats, table)
    ensures TotalCount(cats) == |table|
  {
    cats := [];
    for i := 0 to |table|
      invariant cats == Categories(table[..i])
    {
      assert table[..i + 1][..i] == table[..i];
      var t := table[i];
      ghost var prev := cats;
      var at := IndexOf(cats, t.category);
      if at.None? {
        cats := cats + [Category(t.category, Title(t.category), 0, [])];
        assert cats[|prev|].templates + [Entry(t)] == [Entry(t)];
      }
      var k := if at.None? then |cats| - 1 else at.value;
      cats := cats[k := cats[k].(count := cats[k].count + 1, templates := cats[k].templates + [Entry(t)])];
      assert at.None? ==> cats == prev + [Category(t.category, Title(t.category), 1, [Entry(t)])];
    }
    assert table[..|table|] == table;
    CategoriesGroup(table);
  }

  // ---------------------------------------------------------------------------
  // Default content

  /** The blank résumé content every template starts from. */
  const DefaultContent: map<string, Value> := map[
    "personal_info" := Dict(8),
    "professional_summary" := Str(""),
    "work_experience" := List(0),
    "education" := List(0),
    "skills" := Dict(4),
    "certifications" := List(0),
    "projects" := List(0),
    "languages" := List(0),
    "additional_sections" := Dict(0)]

  /** `get_default_template_content`: the blank content for a known template, an error naming an unknown one. */
  function GetDefaultTemplateContent(table: seq<Template>, id: string): (r: Result<map<string, Value>, string>)
    ensures r.Ok? <==> ValidateTemplateId(table, id)
    ensures r.Err? ==> r.error == "Template " + id + " not found"
    ensures r.Ok? ==> r.value == DefaultContent
  {
    if GetTemplate(table, id).None? then Err("Template " + id + " not found") else Ok(DefaultContent)
  }

  /**
   * The blank content is not blank to the completeness summary: its
   * personal-information and skills dictionaries hold (empty) fields, so
   * they count as completed, and a fresh résumé starts at 40%.
   */
  lemma DefaultContentCompleteness()
    ensures CompletedIn(Sections(DefaultContent)) == 2
    ensures MissingIn(Sections(DefaultContent)) == ["professional_summary", "work_experience", "education"]
  {
    var secs := Sections(DefaultContent);
    assert secs[0] == ("personal_info", Dict(8)) && secs[1] == ("professional_summary", Str(""));
    assert secs[2] == ("work_experience", List(0)) && secs[3] == ("education", List(0));
    assert secs[4] == ("skills", Dict(4));
    assert Strip("") == [];
    MiddleThreeMissing(secs);
  }

  /** Five sections of which the first and last are completed and the middle three are empty. */
  lemma MiddleThreeMissing(secs: seq<(string, Value)>)
    requires |secs| == 5
    requires Completes(secs[0].1) && Completes(secs[4].1)
    requires !Truthy(secs[1].1) && !Truthy(secs[2].1) && !Truthy(secs[3].1)
    ensures CompletedIn(secs) == 2
    ensures MissingIn(secs) == [secs[1].0, secs[2].0, secs[3].0]
  {
    CompletesIsTruthy(secs[0].1);
    assert secs[..0] == [];
    SectionStep(secs, 0);
    SectionStep(secs, 1);
    SectionStep(secs, 2);
    SectionStep(secs, 3);
    SectionStep(secs, 4);
    assert secs[..5] == secs;
  }

  /** Counting one more section adds its own verdict to the counts so far. */
  lemma SectionStep(secs: seq<(string, Value)>, n: nat)
    requires n < |secs|
    ensures CompletedIn(secs[..n + 1]) == CompletedIn(secs[..n]) + (if Completes(secs[n].1) then 1 else 0)
    ensures MissingIn(secs[..n + 1]) == MissingIn(secs[..n]) + (if Truthy(secs[n].1) then [] else [secs[n].0])
  {
    assert secs[..n + 1][..n] == secs[..n];
  }

  // ---------------------------------------------------------------------------
  // Search

  /** The lower-cased name, description and features, space-separated. */
  function SearchText(t: Template): string
  {
    Lower(t.name) + " " + Lower(t.description) + " " + Lower(Join(t.features, " "))
  }

  /** Whether `t` passes the category filter (none when empty) and its text holds the query. */
  predicate Matches(t: Template, query: string, category: string)
  {
    (category == [] || t.category == category) && Contains(SearchText(t), Lower(query))
  }

  /** The matching templates, in catalogue order. */
  function Found(table: seq<Template>, query: string, category: string): (r: seq<TemplateInfo>)
    ensures |r| <= |table|
    ensures forall t | t in table && Matches(t, query, category) :: Info(t) in r
    ensures forall x | x in r :: exists t | t in table :: x == Info(t) && Matches(t, query, category)
  {
    if table == [] then []
    else
      var init, last := table[..|table| - 1], table[|table| - 1];
      assert table == init + [last];
      var rest := Found(init, query, category);
      if Matches(last, query, category) then rest + [Info(last)] else rest
  }

  /** `search_templates`: one pass over the catalogue keeping the matches. */
  method SearchTemplates(table: seq<Template>, query: string, category: string) returns (out: seq<TemplateInfo>)
    ensures out == Found(table, query, category)
  {
    out := [];
    var q := Lower(query);
    for i := 0 to |table|
      invariant out == Found(table[..i], query, category)
    {
      assert table[..i + 1][..i] == table[..i];
      var t := table[i];
      if category != [] && t.category != category {
        continue;
      }
      var text := Lower(t.name) + " " + Lower(t.description) + " " + Lower(Join(t.features, " "));
      if Contains(text, q) {
        out := out + [Info(t)];
      }
    }
    assert table[..|table|] == table;
  }

  /** An empty query without a category lists the whole catalogue. */
  lemma {:induction false} EmptyQueryFindsAll(table: seq<Template>)
    ensures Found(table, "", "") == Listed(table, true)
  {
    if table != [] {
      var init, last := table[..|table| - 1], table[|table| - 1];
      EmptyQueryFindsAll(init);
      assert OccursAt(SearchText(last), Lower(""), 0);
    }
  }

  /** The query is compared without regard to case. */
  lemma {:induction false} SearchIgnoresQueryCase(table: seq<Template>, q1: string, q2: string, category: string)
    requires EqualsIgnoreCase(q1, q2)
    ensures Found(table, q1, category) == Found(table, q2, category)
  {
    if table != [] {
      SearchIgnoresQueryCase(table[..|table| - 1], q1, q2, category);
    }
  }

  // ---------------------------------------------------------------------------
  // Recommendations

  const CreativeTerms: seq<string> := ["creative", "design", "art", "marketing"]
  const TechTerms: seq<string> := ["tech", "software", "engineering", "developer"]

  /** `user_profile.get(key, "")`. */
  function Field(profile: map<string, string>, key: string): string
  {
    if key in profile then profile[key] else ""
  }

  /** Whether a term occurs in the lower-cased industry or job role. */
  predicate ProfileMentions(profile: map<string, string>, terms: seq<string>)
  {
    exists k | k in terms :: Contains(Lower(Field(profile, "industry")), k) || Contains(Lower(Field(profile, "job_role")), k)
  }

  /**
   * The recommended ids: professional and modern without a profile; all
   * three otherwise, creative first for creative fields, modern first for
   * technical ones, professional first for the rest.
   */
  function RecommendedIds(profile: map<string, string>): (ids: seq<string>)
    ensures profile == map[] ==> ids == ["professional", "modern"]
    ensures profile != map[] ==> |ids| == 3 && SetOf(ids) == {"professional", "modern", "creative"}
  {
    if profile == map[] then ["professional", "modern"]
    else if ProfileMentions(profile, CreativeTerms) then ["creative", "modern", "professional"]
    else if ProfileMentions(profile, TechTerms) then ["modern", "professional", "creative"]
    else ["professional", "modern", "creative"]
  }

  /** The listed form of each id that names a template, in order. */
  function InfosOf(table: seq<Template>, ids: seq<string>): (r: seq<TemplateInfo>)
    ensures |r| <= |ids|
    ensures forall x | x in r :: exists t | t in table :: x == Info(t)
  {
    if ids == [] then []
    else
      var init, last := ids[..|ids| - 1], ids[|ids| - 1];
      var rest := InfosOf(table, init);
      match GetTemplate(table, last)
      case None => rest
      case Some(t) => rest + [Info(t)]
  }

  /** `get_recommended_templates`: look up the first three recommended ids, skipping unknown ones. */
  method GetRecommendedTemplates(table: seq<Template>, profile: map<string, string>) returns (out: seq<TemplateInfo>)
    ensures out == InfosOf(table, Take(RecommendedIds(profile), 3))
    ensures |out| <= 3
    ensures forall x | x in out :: exists t | t in table :: x == Info(t)
  {
    var ids := Take(RecommendedIds(profile), 3);
    out := [];
    for i := 0 to |ids|
      invariant out == InfosOf(table, ids[..i])
    {
      assert ids[..i + 1][..i] == ids[..i];
      var t := GetTemplate(table, ids[i]);
      if t.Some? {
        out := out + [Info(t.value)];
      }
    }
    assert ids[..|ids|] == ids;
  }

  /** Every known id contributes one template. */
  lemma {:induction false} InfosOfKnown(table: seq<Template>, ids: seq<string>)
    requires forall id | id in ids :: ValidateTemplateId(table, id)
    ensures |InfosOf(table, ids)| == |ids|
  {
    if ids != [] {
      var init := ids[..|ids| - 1];
      assert forall id | id in init :: id in ids;
      InfosOfKnown(table, init);
      assert ids[|ids| - 1] in ids;
    }
  }

  /** The catalogue finds each of its three ids. */
  lemma CatalogueLookups()
    ensures GetTemplate(Catalogue, "professional") == Some(Catalogue[0])
    ensures GetTemplate(Catalogue, "modern") == Some(Catalogue[1])
    ensures GetTemplate(Catalogue, "creative") == Some(Catalogue[2])
  {
    CatalogueIdsUnique();
    GetTemplateFinds(Catalogue, 0);
    GetTemplateFinds(Catalogue, 1);
    GetTemplateFinds(Catalogue, 2);
  }

  /** Two known ids give their two templates, in order. */
  lemma InfosOfPair(table: seq<Template>, a: string, ta: Template, b: string, tb: Template)
    requires GetTemplate(table, a) == Some(ta) && GetTemplate(table, b) == Some(tb)
    ensures InfosOf(table, [a, b]) == [Info(ta), Info(tb)]
  {
    assert [a, b][..1] == [a];
    assert [a][..0] == [];
  }

  /** Against the service's catalogue, without a profile: professional, then modern. */
  lemma DefaultRecommendations()
    ensures InfosOf(Catalogue, Take(RecommendedIds(map[]), 3)) == [Info(Catalogue[0]), Info(Catalogue[1])]
  {
    CatalogueLookups();
    assert Take(RecommendedIds(map[]), 3) == ["professional", "modern"];
    InfosOfPair(Catalogue, "professional", Catalogue[0], "modern", Catalogue[1]);
  }

  /** Against the service's catalogue, with any profile: all three templates. */
  lemma ProfileRecommendations(profile: map<string, string>)
    requires profile != map[]
    ensures |InfosOf(Catalogue, Take(RecommendedIds(profile), 3))| == 3
  {
    CatalogueLookups();
    var ids := RecommendedIds(profile);
    assert Take(ids, 3) == ids;
    forall id | id in ids
      ensures ValidateTemplateId(Catalogue, id)
    {
      assert id in SetOf(ids);
    }
    InfosOfKnown(Catalogue, ids);
  }
}
