/**
 * `ATSEnhancementService`: the suggestion pipeline that gathers the five
 * generators' suggestions and keeps the highest-impact ones, and the static
 * benchmark table with its filters.
 */
module AtsEnhancement {
  import opened Wrappers
  import opened Text
  import opened Basics
  import opened AtsSuggestions
  import opened AtsEnhancementRules

  /** `_optimize_professional_summary`, scanning the weak openings in order. */
  method OptimizeProfessionalSummary(inp: EnhancementInput, job: string, jobKeywords: seq<string>)
    returns (r: Result<seq<Suggestion>, EnhancementError>)
    ensures r == SummarySuggestions(inp, job, jobKeywords)
  {
    if inp.summary == [] {
      if inp.work == [] {
        return Ok([]);
      }
      if inp.skills.SkillList? {
        return Err(SkillsListHasNoValues);
      }
      return Ok([AddSummary(inp.work, inp.skills.categories)]);
    }
    var out: seq<Suggestion> := [];
    var weak := FindFirstPrefix(Lower(inp.summary), WeakSummaryStarts);
    if weak.Some? && inp.work != [] {
      out := [RewordSummary(inp.summary, weak.value, inp.work)];
    }
    assert out == RewordAdvice(inp.summary, inp.work);
    var expertise: seq<Suggestion> := [];
    if job != [] {
      var missing := MissingSummaryKeywords(inp.summary, jobKeywords);
      if missing != [] {
        expertise := [ExpertiseSuggestion(inp.summary, missing)];
      }
    }
    assert expertise == ExpertiseAdvice(inp.summary, job, jobKeywords);
    r := Ok(out + expertise);
  }

  /** `_optimize_skills_section`, filing the listed skills one by one. */
  method OptimizeSkillsSection(skills: SkillsValue, industry: string, industrySkills: seq<string>)
    returns (out: seq<Suggestion>)
    ensures out == SkillsSuggestions(skills, industry, industrySkills)
  {
    out := [];
    if skills.SkillList? || skills.categories == [] {
      var items := if skills.SkillList? then skills.items else [];
      var technical, programming, tools := CategorizeSkills(items);
      var names := CategoryNames(technical, programming, tools);
      out := [Suggestion("skills", "Unorganized skills list", "Organized into categories: " + Join(names, ", "), OrganizeReason, names)];
    }
    assert out == OrganizeAdvice(skills);
    out := out + IndustryAdvice(skills, industry, industrySkills);
  }

  /** `_suggest_keyword_integration`: the loop over the chosen keywords, then the cap of two. */
  method SuggestKeywordIntegrationFor(inp: EnhancementInput, job: string, jobKeywords: seq<string>)
    returns (r: Result<seq<Suggestion>, EnhancementError>)
    ensures r == KeywordIntegration(inp, job, jobKeywords)
  {
    if job == [] {
      return Ok([]);
    }
    if inp.skills.SkillList? {
      return Err(SkillsListHasNoValues);
    }
    var chosen := Take(MissingResumeKeywords(inp, jobKeywords), 3);
    var out := SuggestKeywordIntegration(inp.summary, chosen);
    r := Ok(Take(out, 2));
  }

  /** Every generator's suggestions, in the order the pipeline gathers them, or the error that stops it. */
  function Candidates(inp: EnhancementInput, job: string, industry: string, jobKeywords: seq<string>,
                      industrySkills: seq<string>, choose: (nat, nat) -> nat): Result<seq<Suggestion>, EnhancementError>
  {
    match SummarySuggestions(inp, job, jobKeywords)
    case Err(e) => Err(e)
    case Ok(summary) =>
      match KeywordIntegration(inp, job, jobKeywords)
      case Err(e) => Err(e)
      case Ok(integration) =>
        Ok(summary + Take(AllWorkSuggestions(inp.work, choose), 3) + SkillsSuggestions(inp.skills, industry, industrySkills)
          + integration + FormattingSuggestions(inp))
  }

  /**
   * The pipeline fails exactly when the skills are a bare list and either a
   * summary must be written from scratch or the résumé text must be read for
   * a job description.
   */
  lemma CandidatesFailIff(inp: EnhancementInput, job: string, industry: string, jobKeywords: seq<string>,
                          industrySkills: seq<string>, choose: (nat, nat) -> nat)
    ensures Candidates(inp, job, industry, jobKeywords, industrySkills, choose).Err? <==>
      inp.skills.SkillList? && ((inp.summary == [] && inp.work != []) || job != [])
  {
  }

  /** With the usual skills dictionary, the pipeline never fails and gathers at most 11 suggestions. */
  lemma CandidatesBound(inp: EnhancementInput, job: string, industry: string, jobKeywords: seq<string>,
                        industrySkills: seq<string>, choose: (nat, nat) -> nat)
    requires inp.skills.SkillDict?
    ensures Candidates(inp, job, industry, jobKeywords, industrySkills, choose).Ok?
    ensures |Candidates(inp, job, industry, jobKeywords, industrySkills, choose).value| <= 11
  {
    var summary := SummarySuggestions(inp, job, jobKeywords);
    var integration := KeywordIntegration(inp, job, jobKeywords);
    assert summary.Ok? && integration.Ok?;
    var work := Take(AllWorkSuggestions(inp.work, choose), 3);
    var skills := SkillsSuggestions(inp.skills, industry, industrySkills);
    var formatting := FormattingSuggestions(inp);
    assert Candidates(inp, job, industry, jobKeywords, industrySkills, choose)
      == Ok(summary.value + work + skills + integration.value + formatting);
    assert |summary.value| <= 2 && |work| <= 3 && |skills| <= 2 && |integration.value| <= 2 && |formatting| <= 2;
  }

  /**
   * `generate_optimization_suggestions`: run the five generators, sort by
   * impact (highest first) and keep `suggestions[:maxSuggestions]`. The
   * result is sorted, drawn from the candidates, as long as the slice, and
   * no candidate left out outranks one kept; the random strong verb is
   * `choose`'s pick.
   */
  method GenerateOptimizationSuggestions(inp: EnhancementInput, job: string, industry: string, maxSuggestions: int,
                                         jobKeywords: seq<string>, industrySkills: seq<string>, choose: (nat, nat) -> nat)
    returns (r: Result<seq<Suggestion>, EnhancementError>)
    ensures var all := Candidates(inp, job, industry, jobKeywords, industrySkills, choose);
      && (r.Err? <==> all.Err?)
      && (r.Ok? ==>
        && SortedBy(r.value, Impact)
        && |r.value| == SliceLength(|all.value|, maxSuggestions)
        && multiset(r.value) <= multiset(all.value)
        && forall x, y | x in r.value && y in multiset(all.value) - multiset(r.value) :: Impact(x) >= Impact(y))
  {
    var summary := OptimizeProfessionalSummary(inp, job, jobKeywords);
    if summary.Err? {
      return Err(summary.error);
    }
    var work := OptimizeWorkExperience(inp.work, choose);
    var skills := OptimizeSkillsSection(inp.skills, industry, industrySkills);
    var integration := SuggestKeywordIntegrationFor(inp, job, jobKeywords);
    if integration.Err? {
      return Err(integration.error);
    }
    var formatting := SuggestFormattingImprovements(inp);
    var all := summary.value + work + skills + integration.value + formatting;
    assert Candidates(inp, job, industry, jobKeywords, industrySkills, choose) == Ok(all);
    var top := TopSuggestions(all, maxSuggestions);
    r := Ok(top);
  }

  // ---------------------------------------------------------------------------
  // Benchmarks

  datatype Benchmark = Benchmark(
    industry: string,
    roleLevel: string,
    averageAtsScore: nat,
    topKeywords: seq<string>,
    recommendedSections: seq<string>,
    minWords: nat,
    maxWords: nat)

  /** The four static benchmarks. */
  const Benchmarks: seq<Benchmark> := [
    Benchmark("Technology", "Entry", 72,
      ["programming", "software development", "agile", "git", "testing"],
      ["Technical Skills", "Projects", "Education", "Certifications"], 400, 700),
    Benchmark("Technology", "Senior", 78,
      ["leadership", "architecture", "mentoring", "strategy", "scalability"],
      ["Leadership Experience", "Technical Skills", "Key Achievements"], 600, 900),
    Benchmark("Healthcare", "Entry", 68,
      ["patient care", "clinical", "medical terminology", "healthcare"],
      ["Clinical Experience", "Certifications", "Education"], 400, 650),
    Benchmark("Finance", "Mid", 75,
      ["financial analysis", "excel", "risk management", "compliance"],
      ["Financial Experience", "Certifications", "Quantifiable Results"], 500, 750)]

  /** Whether a benchmark passes both filters; an empty filter lets everything through. */
  predicate Selected(b: Benchmark, industry: string, roleLevel: string)
  {
    (industry == [] || EqualsIgnoreCase(b.industry, industry))
    && (roleLevel == [] || EqualsIgnoreCase(b.roleLevel, roleLevel))
  }

  /**
   * `get_ats_benchmarks`: the table filtered case-insensitively on industry
   * and then on role level, keeping the table's order.
   */
  function GetAtsBenchmarks(industry: string, roleLevel: string): (r: seq<Benchmark>)
    ensures forall b :: b in r <==> b in Benchmarks && Selected(b, industry, roleLevel)
    ensures |r| <= |Benchmarks|
    ensures industry == [] && roleLevel == [] ==> r == Benchmarks
  {
    var byIndustry := if industry == [] then Benchmarks else Filter(Benchmarks, (b: Benchmark) => EqualsIgnoreCase(b.industry, industry));
    if roleLevel == [] then byIndustry else Filter(byIndustry, (b: Benchmark) => EqualsIgnoreCase(b.roleLevel, roleLevel))
  }

  /** Without filters all four benchmarks come back. */
  lemma NoFilterAllFour()
    ensures |GetAtsBenchmarks("", "")| == 4
  {
  }

  /** Filtering by an industry keeps only that industry's benchmarks, whatever the case of the request. */
  lemma IndustryFilterIgnoresCase(industry: string, other: string, roleLevel: string)
    requires EqualsIgnoreCase(industry, other)
    ensures forall b :: b in GetAtsBenchmarks(industry, roleLevel) <==> b in GetAtsBenchmarks(other, roleLevel)
  {
    assert industry == [] <==> other == [];
  }
}
