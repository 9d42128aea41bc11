/**
 * The five suggestion generators of the ATS enhancement service: the
 * professional summary, the work-experience bullets, the skills section,
 * keyword integration and formatting.
 */
module AtsEnhancementRules {
  import opened Wrappers
  import opened Text
  import opened Basics
  import opened ResumeData
  import opened AtsSuggestions
  import Keywords

  /** `skills` as stored: the usual dictionary of category lists, or a bare list of skills. */
  datatype SkillsValue = SkillDict(categories: seq<SkillCategory>) | SkillList(items: seq<string>)

  /** The parts of the raw résumé content the generators read. */
  datatype EnhancementInput = EnhancementInput(
    personal: PersonalInfo,
    summary: string,
    work: seq<WorkExperience>,
    education: seq<Education>,
    skills: SkillsValue)

  /** Reading the values of a bare skills list, which has none: Python's `AttributeError`. */
  datatype EnhancementError = SkillsListHasNoValues

  /** `xs` enumerates the set `s` once each, in whatever order the set yields. */
  ghost predicate Lists(xs: seq<string>, s: set<string>)
  {
    (forall i, j | 0 <= i < j < |xs| :: xs[i] != xs[j]) && (forall x :: x in xs <==> x in s)
  }

  /** `[x for x in xs if p(x)]`. */
  function Filter<T(!new)>(xs: seq<T>, p: T -> bool): (r: seq<T>)
    ensures |r| <= |xs|
    ensures forall x :: x in r <==> x in xs && p(x)
  {
    if xs == [] then []
    else
      var init, last := xs[..|xs| - 1], xs[|xs| - 1];
      assert xs == init + [last];
      Filter(init, p) + (if p(last) then [last] else [])
  }

  /** The first of `starts` that `lower` begins with. */
  function FirstPrefix(lower: string, starts: seq<string>): (r: Option<string>)
    ensures r.None? <==> forall k | 0 <= k < |starts| :: !StartsWith(lower, starts[k])
    ensures r.Some? ==> exists k | 0 <= k < |starts| ::
      (starts[k] == r.value && StartsWith(lower, r.value) && forall m | 0 <= m < k :: !StartsWith(lower, starts[m]))
  {
    if starts == [] then None
    else if StartsWith(lower, starts[0]) then Some(starts[0])
    else
      var r := FirstPrefix(lower, starts[1..]);
      assert forall k | 1 <= k < |starts| :: starts[1..][k - 1] == starts[k];
      if r.Some? then
        var k :| 0 <= k < |starts[1..]| && starts[1..][k] == r.value && StartsWith(lower, r.value)
          && forall m | 0 <= m < k :: !StartsWith(lower, starts[1..][m]);
        assert starts[k + 1] == r.value;
        r
      else r
  }

  /** The `for ... if ...: break` scan for the first matching start. */
  method FindFirstPrefix(lower: string, starts: seq<string>) returns (r: Option<string>)
    ensures r == FirstPrefix(lower, starts)
  {
    var i := 0;
    while i < |starts|
      invariant 0 <= i <= |starts|
      invariant FirstPrefix(lower, starts) == FirstPrefix(lower, starts[i..])
    {
      if StartsWith(lower, starts[i]) {
        return Some(starts[i]);
      }
      assert starts[i..][1..] == starts[i + 1..];
      i := i + 1;
    }
    return None;
  }

  // ---------------------------------------------------------------------------
  // Professional summary

  /** The summary openings the service rewrites, matched case-insensitively at the start. */
  const WeakSummaryStarts: seq<string> := ["i am a", "my name is", "looking for", "seeking"]

  const AddSummaryReason := "Adding a professional summary increases ATS keyword matching and provides hiring managers with a quick overview of your qualifications"
  const RewordSummaryReason := "Starting with accomplishments and specific experience makes the summary more ATS-friendly and impactful"
  const SummaryKeywordsReason := "Adding relevant keywords from the job description improves ATS matching"

  /** The most recent job's title, or "Professional" without one. */
  function TitleOr(job: WorkExperience): string
  {
    if job.jobTitle == [] then "Professional" else job.jobTitle
  }

  /** Up to three skills from each category, category after category. */
  function TopSkills(categories: seq<SkillCategory>): (r: seq<string>)
    ensures |r| <= 3 * |categories|
  {
    if categories == [] then []
    else TopSkills(categories[..|categories| - 1]) + Take(categories[|categories| - 1].items, 3)
  }

  /** The first four top skills joined by commas, or "key technologies" without any. */
  function SkillPhrase(categories: seq<SkillCategory>): string
  {
    var all := TopSkills(categories);
    if all == [] then "key technologies" else Join(Take(all, 4), ", ")
  }

  /** The written summary proposed for a résumé without one. */
  function AddSummary(work: seq<WorkExperience>, categories: seq<SkillCategory>): Suggestion
    requires work != []
  {
    Suggestion("professional_summary", "[No professional summary]",
      "Results-driven " + TitleOr(work[0]) + " with " + NatToString(Min(|work|, 10))
        + "+ years of experience specializing in " + SkillPhrase(categories)
        + ". Proven track record of delivering high-quality solutions and driving technical innovation.",
      AddSummaryReason,
      ["results-driven", "experience", "specializing", "proven track record"])
  }

  /** The summary with its weak opening `start` replaced by an accomplishment. */
  function RewordSummary(summary: string, start: string, work: seq<WorkExperience>): Suggestion
    requires work != [] && |start| <= |summary|
  {
    Suggestion("professional_summary", summary,
      "Accomplished " + TitleOr(work[0]) + " with " + NatToString(|work|) + "+ years of experience"
        + summary[|start|..],
      RewordSummaryReason,
      ["accomplished", "experience"])
  }

  /** The job keywords among the first five that the summary lacks. */
  function MissingSummaryKeywords(summary: string, jobKeywords: seq<string>): (r: seq<string>)
    ensures |r| <= 5
    ensures forall k :: k in r <==> k in Take(jobKeywords, 5) && k !in Keywords.KeywordSet(summary)
  {
    var have := Keywords.KeywordSet(summary);
    Filter(Take(jobKeywords, 5), k => k !in have)
  }

  function ExpertiseSuggestion(summary: string, missing: seq<string>): Suggestion
  {
    Suggestion("professional_summary", summary,
      summary + " Expertise includes " + Join(Take(missing, 3), ", ") + ".",
      SummaryKeywordsReason, Take(missing, 3))
  }

  /**
   * `_optimize_professional_summary`: without a summary, propose one when
   * there is work experience (reading the skills dictionary's values);
   * otherwise reword a weak opening when there is work experience, and
   * propose the job keywords it lacks when a job description is given.
   */
  function SummarySuggestions(inp: EnhancementInput, job: string, jobKeywords: seq<string>): (r: Result<seq<Suggestion>, EnhancementError>)
    ensures r.Err? <==> inp.summary == [] && inp.work != [] && inp.skills.SkillList?
    ensures r.Ok? ==> |r.value| <= 2
    ensures r.Ok? ==> forall s | s in r.value :: s.section == "professional_summary"
    ensures r.Ok? && inp.summary == [] ==> (r.value != [] <==> inp.work != [])
  {
    if inp.summary == [] then
      if inp.work == [] then Ok([])
      else if inp.skills.SkillList? then Err(SkillsListHasNoValues)
      else Ok([AddSummary(inp.work, inp.skills.categories)])
    else Ok(RewordAdvice(inp.summary, inp.work) + ExpertiseAdvice(inp.summary, job, jobKeywords))
  }

  /** The rewording of a weak opening, offered only with some work experience. */
  function RewordAdvice(summary: string, work: seq<WorkExperience>): (r: seq<Suggestion>)
    ensures |r| <= 1
    ensures r != [] <==> work != [] && exists k | 0 <= k < |WeakSummaryStarts| :: StartsWith(Lower(summary), WeakSummaryStarts[k])
    ensures forall s | s in r :: s.section == "professional_summary"
  {
    match FirstPrefix(Lower(summary), WeakSummaryStarts)
    case None => []
    case Some(start) => if work == [] then [] else [RewordSummary(summary, start, work)]
  }

  /** The expertise suggestion, offered for a job description whose first five keywords the summary partly lacks. */
  function ExpertiseAdvice(summary: string, job: string, jobKeywords: seq<string>): (r: seq<Suggestion>)
    ensures |r| <= 1
    ensures r != [] <==> job != [] && MissingSummaryKeywords(summary, jobKeywords) != []
    ensures forall s | s in r :: s.section == "professional_summary"
  {
    var missing := if job == [] then [] else MissingSummaryKeywords(summary, jobKeywords);
    if missing == [] then [] else [ExpertiseSuggestion(summary, missing)]
  }

  /** The keywords the expertise suggestion offers are job keywords the summary lacks. */
  lemma ExpertiseKeywordsAreMissing(summary: string, job: string, jobKeywords: seq<string>, k: string)
    requires Lists(jobKeywords, Keywords.KeywordSet(job))
    requires k in ExpertiseSuggestion(summary, MissingSummaryKeywords(summary, jobKeywords)).keywordsAdded
    ensures k in Keywords.KeywordSet(job) && k !in Keywords.KeywordSet(summary)
  {
    var missing := MissingSummaryKeywords(summary, jobKeywords);
    InTake(missing, 3);
    InTake(jobKeywords, 5);
  }

  lemma InTake<T>(xs: seq<T>, n: nat)
    ensures forall x | x in Take(xs, n) :: x in xs
  {
  }

  // ---------------------------------------------------------------------------
  // Work experience

  const WeakStarters: seq<string> := ["responsible for", "duties included", "worked on", "helped with", "assisted in"]

  const StrongStarters: seq<string> := [
    "Led", "Developed", "Implemented", "Achieved", "Improved",
    "Optimized", "Streamlined", "Delivered", "Managed", "Created",
    "Increased", "Reduced", "Enhanced", "Established", "Coordinated"]

  const StrongVerbReason := "Using strong action verbs at the start of bullet points makes achievements more impactful and ATS-friendly"
  const ManagedReason := "Adding quantifiable metrics makes achievements more credible and ATS-friendly"
  const ProjectReason := "Quantifying project outcomes demonstrates measurable impact"

  /**
   * The strong verb chosen for bullet `r` of job `j`: `choose` stands for the
   * random generator, so the verb is some member of the list.
   */
  function Verb(choose: (nat, nat) -> nat, j: nat, r: nat): (v: string)
    ensures v in StrongStarters
  {
    StrongStarters[choose(j, r) % |StrongStarters|]
  }

  /** A digit or one of the change words: the bullet already quantifies something. */
  predicate HasMetric(lower: string)
  {
    HasDigit(lower) || Contains(lower, "increased") || Contains(lower, "decreased")
    || Contains(lower, "improved") || Contains(lower, "reduced")
  }

  /** The metric suggestion for an unquantified bullet. */
  function MetricSuggestions(resp: string): (r: seq<Suggestion>)
    ensures |r| <= 1
    ensures r != [] <==> !HasMetric(Lower(resp)) && (Contains(Lower(resp), "managed") || Contains(Lower(resp), "project"))
  {
    var lower := Lower(resp);
    if HasMetric(lower) then []
    else if Contains(lower, "managed") then
      [Suggestion("work_experience", resp, resp + " (team of X people, budget of $X)", ManagedReason, ["managed", "team", "budget"])]
    else if Contains(lower, "project") then
      [Suggestion("work_experience", resp, resp + " resulting in X% improvement", ProjectReason, ["improvement", "results"])]
    else []
  }

  /** The suggestions for one bullet: a stronger opening verb, then a metric. */
  function BulletSuggestions(resp: string, verb: string): (r: seq<Suggestion>)
    ensures |r| <= 2
    ensures forall s | s in r :: s.section == "work_experience" && s.currentText == resp
    ensures r == [] <==>
      (forall k | 0 <= k < |WeakStarters| :: !StartsWith(Lower(resp), WeakStarters[k]))
      && (HasMetric(Lower(resp)) || !(Contains(Lower(resp), "managed") || Contains(Lower(resp), "project")))
  {
    var reword := match FirstPrefix(Lower(resp), WeakStarters)
      case None => []
      case Some(start) =>
        [Suggestion("work_experience", resp, verb + " " + Strip(resp[|start|..]), StrongVerbReason, [Lower(verb)])];
    reword + MetricSuggestions(resp)
  }

  /** The suggestions for the bullets of job `j`, in order. */
  function ResponsibilitySuggestions(resps: seq<string>, j: nat, choose: (nat, nat) -> nat): seq<Suggestion>
  {
    if resps == [] then []
    else
      var n := |resps| - 1;
      ResponsibilitySuggestions(resps[..n], j, choose) + BulletSuggestions(resps[n], Verb(choose, j, n))
  }

  /** The suggestions for every bullet of every job, before the cap. */
  function AllWorkSuggestions(work: seq<WorkExperience>, choose: (nat, nat) -> nat): seq<Suggestion>
  {
    if work == [] then []
    else
      var n := |work| - 1;
      AllWorkSuggestions(work[..n], choose) + ResponsibilitySuggestions(work[n].responsibilities, n, choose)
  }

  lemma {:induction false} ResponsibilitySuggestionsSection(resps: seq<string>, j: nat, choose: (nat, nat) -> nat)
    ensures forall s | s in ResponsibilitySuggestions(resps, j, choose) :: s.section == "work_experience"
  {
    if resps != [] {
      ResponsibilitySuggestionsSection(resps[..|resps| - 1], j, choose);
    }
  }

  /** Every work suggestion belongs to the work-experience section. */
  lemma {:induction false} WorkSuggestionsSection(work: seq<WorkExperience>, choose: (nat, nat) -> nat)
    ensures forall s | s in AllWorkSuggestions(work, choose) :: s.section == "work_experience"
  {
    if work != [] {
      WorkSuggestionsSection(work[..|work| - 1], choose);
      ResponsibilitySuggestionsSection(work[|work| - 1].responsibilities, |work| - 1, choose);
    }
  }

  /** A résumé whose bullets all open strongly and quantify something gets no work suggestion. */
  lemma {:induction false} StrongBulletsNeedNothing(resps: seq<string>, j: nat, choose: (nat, nat) -> nat)
    requires forall i | 0 <= i < |resps| ::
      (HasMetric(Lower(resps[i])) && forall k | 0 <= k < |WeakStarters| :: !StartsWith(Lower(resps[i]), WeakStarters[k]))
    ensures ResponsibilitySuggestions(resps, j, choose) == []
  {
    if resps != [] {
      StrongBulletsNeedNothing(resps[..|resps| - 1], j, choose);
      var n := |resps| - 1;
      assert BulletSuggestions(resps[n], Verb(choose, j, n)) == [];
    }
  }

  /** The checks on one bullet: the weak-opening scan, then the metric check. */
  method AdviseBullet(resp: string, verb: string) returns (advice: seq<Suggestion>)
    ensures advice == BulletSuggestions(resp, verb)
  {
    var weak := FindFirstPrefix(Lower(resp), WeakStarters);
    var reword: seq<Suggestion> := [];
    if weak.Some? {
      reword := [Suggestion("work_experience", resp, verb + " " + Strip(resp[|weak.value|..]), StrongVerbReason, [Lower(verb)])];
    }
    advice := reword + MetricSuggestions(resp);
  }

  /** The inner loop over the bullets of job `j`. */
  method AdviseResponsibilities(resps: seq<string>, j: nat, choose: (nat, nat) -> nat) returns (advice: seq<Suggestion>)
    ensures advice == ResponsibilitySuggestions(resps, j, choose)
  {
    advice := [];
    var r := 0;
    while r < |resps|
      invariant 0 <= r <= |resps|
      invariant advice == ResponsibilitySuggestions(resps[..r], j, choose)
    {
      var bullet := AdviseBullet(resps[r], Verb(choose, j, r));
      advice := advice + bullet;
      assert resps[..r + 1][..r] == resps[..r];
      r := r + 1;
    }
    assert resps[..r] == resps;
  }

  /**
   * `_optimize_work_experience`: the nested loop over jobs and bullets, then
   * the first three suggestions.
   */
  method OptimizeWorkExperience(work: seq<WorkExperience>, choose: (nat, nat) -> nat) returns (out: seq<Suggestion>)
    ensures out == Take(AllWorkSuggestions(work, choose), 3)
    ensures |out| <= 3
    ensures forall s | s in out :: s.section == "work_experience"
  {
    var all: seq<Suggestion> := [];
    var j := 0;
    while j < |work|
      invariant 0 <= j <= |work|
      invariant all == AllWorkSuggestions(work[..j], choose)
    {
      var forJob := AdviseResponsibilities(work[j].responsibilities, j, choose);
      all := all + forJob;
      assert work[..j + 1][..j] == work[..j];
      j := j + 1;
    }
    assert work[..j] == work;
    WorkSuggestionsSection(work, choose);
    InTake(all, 3);
    out := Take(all, 3);
  }

  // ---------------------------------------------------------------------------
  // Skills

  const ProgrammingKeywords: seq<string> := ["python", "java", "javascript", "c++", "c#", "ruby", "go", "rust"]
  const ToolKeywords: seq<string> := ["excel", "salesforce", "jira", "confluence", "git", "docker", "kubernetes"]

  const OrganizeReason := "Organizing skills into clear categories improves ATS parsing and readability"

  datatype SkillKind = ProgrammingLanguage | ToolOrPlatform | TechnicalSkill

  /** The category of one skill, tested in order: a language, then a tool, else technical. */
  function KindOf(skill: string): SkillKind
  {
    if MentionsTerm(Lower(skill), ProgrammingKeywords) then ProgrammingLanguage
    else if MentionsTerm(Lower(skill), ToolKeywords) then ToolOrPlatform
    else TechnicalSkill
  }

  /** `any(term in lower for term in terms)`. */
  predicate MentionsTerm(lower: string, terms: seq<string>)
  {
    exists t | 0 <= t < |terms| :: Contains(lower, terms[t])
  }

  /** A skill is a language when it mentions one, a tool when it mentions a tool but no language, technical otherwise. */
  lemma KindOfMeaning(skill: string)
    ensures KindOf(skill) == ProgrammingLanguage <==> MentionsTerm(Lower(skill), ProgrammingKeywords)
    ensures KindOf(skill) == ToolOrPlatform <==>
      !MentionsTerm(Lower(skill), ProgrammingKeywords) && MentionsTerm(Lower(skill), ToolKeywords)
    ensures KindOf(skill) == TechnicalSkill <==>
      !MentionsTerm(Lower(skill), ProgrammingKeywords) && !MentionsTerm(Lower(skill), ToolKeywords)
  {
  }

  /** The skills of one kind, in order. */
  function OfKind(items: seq<string>, kind: SkillKind): (r: seq<string>)
    ensures |r| <= |items|
  {
    if items == [] then []
    else OfKind(items[..|items| - 1], kind) + (if KindOf(items[|items| - 1]) == kind then [items[|items| - 1]] else [])
  }

  /** A skill is filed under its own kind and no other. */
  lemma {:induction false} OfKindMembers(items: seq<string>, kind: SkillKind, s: string)
    ensures s in OfKind(items, kind) <==> s in items && KindOf(s) == kind
  {
    if items != [] {
      var init := items[..|items| - 1];
      OfKindMembers(init, kind, s);
      assert items == init + [items[|items| - 1]];
    }
  }

  /** Each skill lands in exactly one category, so the three lists together are as long as the input. */
  lemma {:induction false} KindsPartition(items: seq<string>)
    ensures |OfKind(items, TechnicalSkill)| + |OfKind(items, ProgrammingLanguage)| + |OfKind(items, ToolOrPlatform)| == |items|
  {
    if items != [] {
      var init := items[..|items| - 1];
      KindsPartition(init);
    }
  }

  /** The loop that files each skill under its category. */
  method CategorizeSkills(items: seq<string>) returns (technical: seq<string>, programming: seq<string>, tools: seq<string>)
    ensures technical == OfKind(items, TechnicalSkill)
    ensures programming == OfKind(items, ProgrammingLanguage)
    ensures tools == OfKind(items, ToolOrPlatform)
    ensures |technical| + |programming| + |tools| == |items|
  {
    technical, programming, tools := [], [], [];
    var i := 0;
    while i < |items|
      invariant 0 <= i <= |items|
      invariant technical == OfKind(items[..i], TechnicalSkill)
      invariant programming == OfKind(items[..i], ProgrammingLanguage)
      invariant tools == OfKind(items[..i], ToolOrPlatform)
    {
      var kind := KindOf(items[i]);
      if kind == ProgrammingLanguage {
        programming := programming + [items[i]];
      } else if kind == ToolOrPlatform {
        tools := tools + [items[i]];
      } else {
        technical := technical + [items[i]];
      }
      assert items[..i + 1][..i] == items[..i];
      i := i + 1;
    }
    assert items[..i] == items;
    KindsPartition(items);
  }

  /** The non-empty categories, in the dictionary's order; "Core Competencies" is never filled. */
  function CategoryNames(technical: seq<string>, programming: seq<string>, tools: seq<string>): (names: seq<string>)
    ensures "Technical Skills" in names <==> technical != []
    ensures "Programming Languages" in names <==> programming != []
    ensures "Tools & Platforms" in names <==> tools != []
    ensures "Core Competencies" !in names
    ensures |names| <= 3
  {
    (if technical != [] then ["Technical Skills"] else [])
    + (if programming != [] then ["Programming Languages"] else [])
    + (if tools != [] then ["Tools & Platforms"] else [])
  }

  /** The organising suggestion for a bare list of skills or an empty dictionary. */
  function OrganizeSuggestion(items: seq<string>): Suggestion
  {
    var names := CategoryNames(OfKind(items, TechnicalSkill), OfKind(items, ProgrammingLanguage), OfKind(items, ToolOrPlatform));
    Suggestion("skills", "Unorganized skills list", "Organized into categories: " + Join(names, ", "), OrganizeReason, names)
  }

  /** The lowercased skills the résumé lists, whichever shape `skills` has. */
  function CurrentSkills(skills: SkillsValue): seq<string>
  {
    match skills
    case SkillDict(categories) => LowerAll(SkillItems(categories))
    case SkillList(items) => LowerAll(items)
  }

  /** Up to five of the first ten industry skills the résumé does not list, compared in lower case. */
  function MissingIndustrySkills(skills: SkillsValue, industrySkills: seq<string>): (r: seq<string>)
    ensures |r| <= 5
    ensures forall s | s in r :: s in industrySkills && Lower(s) !in CurrentSkills(skills)
  {
    var current := CurrentSkills(skills);
    var candidates := Filter(Take(industrySkills, 10), s => Lower(s) !in current);
    InTake(industrySkills, 10);
    InTake(candidates, 5);
    Take(candidates, 5)
  }

  /** The organising suggestion, for a bare list of skills or an empty dictionary. */
  function OrganizeAdvice(skills: SkillsValue): (r: seq<Suggestion>)
    ensures |r| <= 1
    ensures r != [] <==> skills.SkillList? || skills.categories == []
    ensures forall s | s in r :: s.section == "skills"
  {
    match skills
    case SkillList(items) => [OrganizeSuggestion(items)]
    case SkillDict(categories) => if categories == [] then [OrganizeSuggestion([])] else []
  }

  /** The industry suggestion, naming the skills the résumé lacks. */
  function IndustryAdvice(skills: SkillsValue, industry: string, industrySkills: seq<string>): (r: seq<Suggestion>)
    ensures |r| <= 1
    ensures r != [] <==> industry != [] && MissingIndustrySkills(skills, industrySkills) != []
    ensures forall s | s in r :: s.section == "skills" && s.keywordsAdded == MissingIndustrySkills(skills, industrySkills)
  {
    var missing := if industry == [] then [] else MissingIndustrySkills(skills, industrySkills);
    if missing == [] then []
    else
      [Suggestion("skills", "Current skills list", "Add relevant " + industry + " skills: " + Join(missing, ", "),
        "Adding industry-relevant skills improves ATS matching for " + industry + " positions", missing)]
  }

  /** `_optimize_skills_section`: the organising suggestion, then the industry one. */
  function SkillsSuggestions(skills: SkillsValue, industry: string, industrySkills: seq<string>): (r: seq<Suggestion>)
    ensures |r| <= 2
    ensures forall s | s in r :: s.section == "skills"
  {
    OrganizeAdvice(skills) + IndustryAdvice(skills, industry, industrySkills)
  }

  /** Every skill the industry suggestion adds comes from the industry's list and is absent from the résumé. */
  lemma IndustrySkillsAreMissing(skills: SkillsValue, industry: string, industrySkills: seq<string>, k: string)
    requires Lists(industrySkills, Keywords.IndustrySkillSet(industry))
    requires k in MissingIndustrySkills(skills, industrySkills)
    ensures k in Keywords.IndustrySkillSet(industry)
    ensures Lower(k) !in CurrentSkills(skills)
  {
  }

  // ---------------------------------------------------------------------------
  // Keyword integration

  const IntegrationReason := "Naturally integrating job-relevant keywords improves ATS matching"

  /** `_extract_resume_text`: the name, the summary, each job's title, company and bullets, each degree and institution, and every listed skill. */
  function EnhancementTextParts(inp: EnhancementInput): seq<string>
    requires inp.skills.SkillDict?
  {
    [inp.personal.firstName + " " + inp.personal.lastName]
    + (if inp.summary != [] then [inp.summary] else [])
    + FlatMap(inp.work, (job: WorkExperience) => [job.jobTitle, job.company] + job.responsibilities)
    + FlatMap(inp.education, (edu: Education) => [edu.degree, edu.institution])
    + SkillItems(inp.skills.categories)
  }

  function EnhancementText(inp: EnhancementInput): string
    requires inp.skills.SkillDict?
  {
    Join(NonEmptyStrings(EnhancementTextParts(inp)), " ")
  }

  /** One integration suggestion per keyword the non-empty summary does not already contain. */
  function IntegrationSuggestions(summary: string, keywords: seq<string>): (r: seq<Suggestion>)
    ensures |r| <= |keywords|
    ensures forall s | s in r ::
      (s.section == "professional_summary" && |s.keywordsAdded| == 1
       && s.keywordsAdded[0] in keywords && !Contains(Lower(summary), s.keywordsAdded[0]))
    ensures summary == [] ==> r == []
  {
    if keywords == [] then []
    else
      var n := |keywords| - 1;
      var k := keywords[n];
      IntegrationSuggestions(summary, keywords[..n])
      + (if summary != [] && !Contains(Lower(summary), k)
         then [Suggestion("professional_summary", summary, summary + " Experienced with " + k + ".", IntegrationReason, [k])]
         else [])
  }

  /**
   * `_suggest_keyword_integration`: with a job description, the first three
   * of its first ten keywords missing from the résumé, each offered for the
   * summary, and at most two suggestions in all. Extracting the résumé text
   * reads the skills dictionary's values.
   */
  function KeywordIntegration(inp: EnhancementInput, job: string, jobKeywords: seq<string>): (r: Result<seq<Suggestion>, EnhancementError>)
    ensures r.Err? <==> job != [] && inp.skills.SkillList?
    ensures r.Ok? ==> |r.value| <= 2
    ensures r.Ok? && (job == [] || inp.summary == []) ==> r.value == []
  {
    if job == [] then Ok([])
    else if inp.skills.SkillList? then Err(SkillsListHasNoValues)
    else
      Ok(Take(IntegrationSuggestions(inp.summary, Take(MissingResumeKeywords(inp, jobKeywords), 3)), 2))
  }

  /** The first ten job keywords that the résumé's own keywords lack. */
  function MissingResumeKeywords(inp: EnhancementInput, jobKeywords: seq<string>): (r: seq<string>)
    requires inp.skills.SkillDict?
    ensures |r| <= 10
    ensures forall k | k in r :: k in jobKeywords && k !in Keywords.KeywordSet(EnhancementText(inp))
  {
    var have := Keywords.KeywordSet(EnhancementText(inp));
    InTake(jobKeywords, 10);
    Filter(Take(jobKeywords, 10), k => k !in have)
  }

  /** The keywords offered for integration are job keywords the résumé's text lacks. */
  lemma IntegratedKeywordsAreMissing(inp: EnhancementInput, job: string, jobKeywords: seq<string>, s: Suggestion)
    requires Lists(jobKeywords, Keywords.KeywordSet(job))
    requires inp.skills.SkillDict?
    requires s in Take(IntegrationSuggestions(inp.summary, Take(MissingResumeKeywords(inp, jobKeywords), 3)), 2)
    ensures |s.keywordsAdded| == 1
    ensures s.keywordsAdded[0] in Keywords.KeywordSet(job)
    ensures s.keywordsAdded[0] !in Keywords.KeywordSet(EnhancementText(inp))
  {
    var chosen := Take(MissingResumeKeywords(inp, jobKeywords), 3);
    InTake(IntegrationSuggestions(inp.summary, chosen), 2);
    InTake(MissingResumeKeywords(inp, jobKeywords), 3);
  }

  /** The integration loop over the chosen keywords. */
  method SuggestKeywordIntegration(summary: string, keywords: seq<string>) returns (out: seq<Suggestion>)
    ensures out == IntegrationSuggestions(summary, keywords)
  {
    out := [];
    var i := 0;
    while i < |keywords|
      invariant 0 <= i <= |keywords|
      invariant out == IntegrationSuggestions(summary, keywords[..i])
    {
      var k := keywords[i];
      if summary != [] && !Contains(Lower(summary), k) {
        out := out + [Suggestion("professional_summary", summary, summary + " Experienced with " + k + ".", IntegrationReason, [k])];
      }
      assert keywords[..i + 1][..i] == keywords[..i];
      i := i + 1;
    }
    assert keywords[..i] == keywords;
  }

  // ---------------------------------------------------------------------------
  // Formatting

  const DateReason := "Consistent date formatting improves ATS parsing accuracy"
  const ContactReason := "Complete contact information is essential for ATS systems and recruiters"

  /** The names of the contact fields that are empty. */
  function MissingContact(p: PersonalInfo): (names: seq<string>)
    ensures names == [] <==> p.firstName != [] && p.lastName != [] && p.email != [] && p.phone != []
    ensures "Email" in names <==> p.email == []
  {
    (if p.firstName == [] then ["First Name"] else [])
    + (if p.lastName == [] then ["Last Name"] else [])
    + (if p.email == [] then ["Email"] else [])
    + (if p.phone == [] then ["Phone"] else [])
  }

  function ContactSuggestion(missing: seq<string>): Suggestion
  {
    Suggestion("personal_info", "Incomplete contact information", "Add missing fields: " + Join(missing, ", "), ContactReason, [])
  }

  /** The date suggestion, when some date does not start with YYYY-MM. */
  function DateAdvice(dates: seq<string>): (r: seq<Suggestion>)
    ensures |r| <= 1
    ensures r != [] <==> exists d | d in dates :: !StartsWithYearMonth(d)
    ensures forall s | s in r :: s.section == "work_experience" && s.reason == DateReason
  {
    var bad := Filter(dates, d => !StartsWithYearMonth(d));
    assert bad != [] ==> bad[0] in bad;
    if bad == [] then []
    else
      [Suggestion("work_experience", "Inconsistent date formats: " + Join(Take(bad, 2), ", "),
        "Use consistent YYYY-MM format (e.g., 2023-01)", DateReason, [])]
  }

  /** The contact suggestion, when some contact field is empty. */
  function ContactAdvice(p: PersonalInfo): (r: seq<Suggestion>)
    ensures |r| <= 1
    ensures r != [] <==> p.firstName == [] || p.lastName == [] || p.email == [] || p.phone == []
    ensures forall s | s in r :: s.section == "personal_info" && s.reason == ContactReason
  {
    var missing := MissingContact(p);
    if missing == [] then [] else [ContactSuggestion(missing)]
  }

  /**
   * `_suggest_formatting_improvements`: only when some job has a date, the
   * date suggestion and then the contact suggestion.
   */
  function FormattingSuggestions(inp: EnhancementInput): (r: seq<Suggestion>)
    ensures |r| <= 2
    ensures WorkDates(inp.work) == [] ==> r == []
    ensures forall s | s in r :: s.section in {"work_experience", "personal_info"}
  {
    var dates := WorkDates(inp.work);
    if dates == [] then [] else DateAdvice(dates) + ContactAdvice(inp.personal)
  }

  /** The formatting pass: the date loop, then (when some date exists) the contact-field loop. */
  method SuggestFormattingImprovements(inp: EnhancementInput) returns (out: seq<Suggestion>)
    ensures out == FormattingSuggestions(inp)
  {
    var dates := AppendParts([], inp.work, JobDates);
    assert dates == WorkDates(inp.work);
    out := [];
    if dates != [] {
      var bad := Filter(dates, d => !StartsWithYearMonth(d));
      if bad != [] {
        out := [Suggestion("work_experience", "Inconsistent date formats: " + Join(Take(bad, 2), ", "),
          "Use consistent YYYY-MM format (e.g., 2023-01)", DateReason, [])];
      }
      assert out == DateAdvice(dates);
      var missing := CollectMissingContact(inp.personal);
      if missing != [] {
        out := out + [ContactSuggestion(missing)];
      }
      assert out == DateAdvice(dates) + ContactAdvice(inp.personal);
    }
  }

  /** The contact-field loop over first name, last name, email and phone. */
  method CollectMissingContact(p: PersonalInfo) returns (missing: seq<string>)
    ensures missing == MissingContact(p)
  {
    var fields := [p.firstName, p.lastName, p.email, p.phone];
    var names := ["First Name", "Last Name", "Email", "Phone"];
    missing := [];
    var f := 0;
    while f < 4
      invariant 0 <= f <= 4
      invariant missing == MissingFields(fields[..f], names[..f])
    {
      if fields[f] == [] {
        missing := missing + [names[f]];
      }
      assert fields[..f + 1][..f] == fields[..f];
      assert names[..f + 1][..f] == names[..f];
      f := f + 1;
    }
    assert fields[..4] == fields && names[..4] == names;
    ContactFieldsInOrder(p);
  }

  /** The names of the empty fields, pairing each field with its name. */
  function MissingFields(fields: seq<string>, names: seq<string>): seq<string>
    requires |fields| == |names|
  {
    if fields == [] then []
    else
      var n := |fields| - 1;
      MissingFields(fields[..n], names[..n]) + (if fields[n] == [] then [names[n]] else [])
  }

  lemma ContactFieldsInOrder(p: PersonalInfo)
    ensures MissingFields([p.firstName, p.lastName, p.email, p.phone], ["First Name", "Last Name", "Email", "Phone"])
      == MissingContact(p)
  {
    var f1, n1 := [p.firstName], ["First Name"];
    var f2, n2 := f1 + [p.lastName], n1 + ["Last Name"];
    var f3, n3 := f2 + [p.email], n2 + ["Email"];
    var f4, n4 := f3 + [p.phone], n3 + ["Phone"];
    assert f1[..0] == [] && n1[..0] == [];
    assert f2[..1] == f1 && n2[..1] == n1;
    assert f3[..2] == f2 && n3[..2] == n2;
    assert f4[..3] == f3 && n4[..3] == n3;
    assert MissingFields(f1, n1) == (if p.firstName == [] then ["First Name"] else []);
    assert MissingFields(f2, n2) == MissingFields(f1, n1) + (if p.lastName == [] then ["Last Name"] else []);
    assert MissingFields(f3, n3) == MissingFields(f2, n2) + (if p.email == [] then ["Email"] else []);
    assert MissingFields(f4, n4) == MissingFields(f3, n3) + (if p.phone == [] then ["Phone"] else []);
    assert f4 == [p.firstName, p.lastName, p.email, p.phone];
    assert n4 == ["First Name", "Last Name", "Email", "Phone"];
  }
}
