/**
 * The résumé validation service: section completeness, the list of
 * improvement recommendations, the overall résumé score, and validation of
 * a single named section.
 */
module ValidationService {
  import opened Wrappers
  import opened Text
  import opened Basics
  import opened ResumeData
  import opened Validators

  // ---------------------------------------------------------------------------
  // Completeness

  /** A section value as `_is_section_complete` sees it. */
  datatype SectionData =
    | Absent
    | TextValue(s: string)
    | ListValue(length: nat)
    | DictValue(size: nat)
    | OtherValue(truthy: bool)

  predicate Truthy(d: SectionData)
  {
    match d
    case Absent => false
    case TextValue(s) => s != []
    case ListValue(n) => n > 0
    case DictValue(n) => n > 0
    case OtherValue(t) => t
  }

  /** `_is_section_complete`. */
  predicate IsSectionComplete(d: SectionData)
  {
    if !Truthy(d) then false
    else
      match d
      case TextValue(s) => Strip(s) != []
      case _ => Truthy(d)
  }

  /** Falsy data is never complete, and a string is complete exactly when it is not blank. */
  lemma SectionCompleteFacts(d: SectionData)
    ensures !Truthy(d) ==> !IsSectionComplete(d)
    ensures d.TextValue? ==> (IsSectionComplete(d) <==> !IsBlank(d.s))
    ensures !d.TextValue? ==> (IsSectionComplete(d) <==> Truthy(d))
  {
    if d.TextValue? {
      StripEmptyIffBlank(d.s);
    }
  }

  type NamedSection = (string, SectionData)

  /** The five required sections, read with the service's defaults. */
  function RequiredSectionData(r: ResumeContent): (sections: seq<NamedSection>)
    ensures |sections| == 5
  {
    [("personal_info", if r.personalInfo.Some? then DictValue(8) else DictValue(0)),
     ("professional_summary", TextValue(r.professionalSummary)),
     ("work_experience", ListValue(|r.workExperience|)),
     ("education", ListValue(|r.education|)),
     ("skills", DictValue(|r.skills|))]
  }

  function OptionalSectionData(r: ResumeContent): (sections: seq<NamedSection>)
    ensures |sections| == 3
  {
    [("certifications", ListValue(|r.certifications|)),
     ("projects", ListValue(|r.projects|)),
     ("languages", ListValue(|r.languages|))]
  }

  function CompleteCount(sections: seq<NamedSection>): (n: nat)
    ensures n <= |sections|
  {
    if sections == [] then 0
    else CompleteCount(sections[..|sections| - 1]) + (if IsSectionComplete(sections[|sections| - 1].1) then 1 else 0)
  }

  function IncompleteNames(sections: seq<NamedSection>): seq<string>
  {
    if sections == [] then []
    else
      IncompleteNames(sections[..|sections| - 1])
      + (if IsSectionComplete(sections[|sections| - 1].1) then [] else [sections[|sections| - 1].0])
  }

  /**
   * `min(100, int(c / 5 * 85) + min(15, int(o / 3 * 15)))` with `c` of the
   * five required and `o` of the three optional sections complete.
   */
  function CompletenessPercentage(completed: nat, optional: nat): int
  {
    Min(100, 85 * completed / 5 + Min(15, 15 * optional / 3))
  }

  datatype Completeness = Completeness(
    percentage: int,
    completed: nat,
    total: nat,
    missing: seq<string>,
    optionalCompleted: nat)

  /** The loop over a section table: how many are complete, and the names of the others in order. */
  method TallySections(sections: seq<NamedSection>) returns (completed: nat, missing: seq<string>)
    ensures completed == CompleteCount(sections) && missing == IncompleteNames(sections)
  {
    completed, missing := 0, [];
    var i := 0;
    while i < |sections|
      invariant 0 <= i <= |sections|
      invariant completed == CompleteCount(sections[..i]) && missing == IncompleteNames(sections[..i])
    {
      if IsSectionComplete(sections[i].1) {
        completed := completed + 1;
      } else {
        missing := missing + [sections[i].0];
      }
      assert sections[..i + 1][..i] == sections[..i];
      i := i + 1;
    }
    assert sections[..i] == sections;
  }

  /** `_calculate_completeness`. */
  method CalculateCompleteness(r: ResumeContent) returns (c: Completeness)
    ensures c.completed == CompleteCount(RequiredSectionData(r)) && c.total == 5
    ensures c.missing == IncompleteNames(RequiredSectionData(r))
    ensures c.optionalCompleted == CompleteCount(OptionalSectionData(r))
    ensures c.percentage == CompletenessPercentage(c.completed, c.optionalCompleted)
  {
    var completed, missing := TallySections(RequiredSectionData(r));
    var optional, ignored := TallySections(OptionalSectionData(r));
    c := Completeness(CompletenessPercentage(completed, optional), completed, 5, missing, optional);
  }

  lemma {:induction false} CompleteAndIncompletePartition(sections: seq<NamedSection>)
    ensures CompleteCount(sections) + |IncompleteNames(sections)| == |sections|
    ensures forall name :: name in IncompleteNames(sections) <==>
      exists i :: 0 <= i < |sections| && sections[i].0 == name && !IsSectionComplete(sections[i].1)
  {
    if sections != [] {
      CompleteAndIncompletePartition(sections[..|sections| - 1]);
    }
    forall name ensures name in IncompleteNames(sections) <==>
      exists i :: 0 <= i < |sections| && sections[i].0 == name && !IsSectionComplete(sections[i].1)
    {
      if name in IncompleteNames(sections) {
        IncompleteNameHasIndex(sections, name);
      }
      if exists i :: 0 <= i < |sections| && sections[i].0 == name && !IsSectionComplete(sections[i].1) {
        var i :| 0 <= i < |sections| && sections[i].0 == name && !IsSectionComplete(sections[i].1);
        IncompleteIndexNamed(sections, i);
      }
    }
  }

  /** Every listed name is that of an incomplete section. */
  lemma {:induction false} IncompleteNameHasIndex(sections: seq<NamedSection>, name: string)
    requires name in IncompleteNames(sections)
    ensures exists i :: 0 <= i < |sections| && sections[i].0 == name && !IsSectionComplete(sections[i].1)
  {
    var init, last := sections[..|sections| - 1], sections[|sections| - 1];
    if name in IncompleteNames(init) {
      IncompleteNameHasIndex(init, name);
      var i :| 0 <= i < |init| && init[i].0 == name && !IsSectionComplete(init[i].1);
      assert sections[i] == init[i];
    } else {
      assert sections[|sections| - 1].0 == name && !IsSectionComplete(sections[|sections| - 1].1);
    }
  }

  /** Every incomplete section has its name listed. */
  lemma {:induction false} IncompleteIndexNamed(sections: seq<NamedSection>, i: nat)
    requires i < |sections| && !IsSectionComplete(sections[i].1)
    ensures sections[i].0 in IncompleteNames(sections)
  {
    var init := sections[..|sections| - 1];
    if i < |init| {
      assert init[i] == sections[i];
      IncompleteIndexNamed(init, i);
    }
  }

  /**
   * Every required section is either counted complete or listed as missing,
   * and the missing list names exactly the incomplete ones; the percentage
   * is 17 points per required and 5 per optional section, from 0 to 100,
   * and reaches 100 only when all eight sections are complete.
   */
  lemma CompletenessShape(r: ResumeContent)
    ensures CompleteCount(RequiredSectionData(r)) + |IncompleteNames(RequiredSectionData(r))| == 5
    ensures forall name :: name in IncompleteNames(RequiredSectionData(r)) <==>
      exists i :: 0 <= i < 5 && RequiredSectionData(r)[i].0 == name && !IsSectionComplete(RequiredSectionData(r)[i].1)
    ensures var p := CompletenessPercentage(CompleteCount(RequiredSectionData(r)), CompleteCount(OptionalSectionData(r)));
      0 <= p <= 100
      && p == 17 * CompleteCount(RequiredSectionData(r)) + 5 * CompleteCount(OptionalSectionData(r))
      && (p == 100 <==> CompleteCount(RequiredSectionData(r)) == 5 && CompleteCount(OptionalSectionData(r)) == 3)
  {
    CompleteAndIncompletePartition(RequiredSectionData(r));
  }

  /** A present summary of only spaces still counts as missing. */
  lemma BlankSummaryIsMissing(r: ResumeContent)
    requires r.professionalSummary != [] && IsBlank(r.professionalSummary)
    ensures "professional_summary" in IncompleteNames(RequiredSectionData(r))
  {
    SectionCompleteFacts(TextValue(r.professionalSummary));
    CompleteAndIncompletePartition(RequiredSectionData(r));
    assert RequiredSectionData(r)[1].0 == "professional_summary";
  }

  // ---------------------------------------------------------------------------
  // Recommendations

  datatype Recommendation =
    | AddSummary
    | ExpandSummary
    | AddWorkExperience
    | MoreResponsibilities(jobTitle: string)
    | QuantifyAchievements
    | AddEducation
    | AddSkills
    | AddCertifications
    | AddProjects
    | AddLanguages
    | AddLinkedIn
    | AddGitHub
    | FixValidationErrors

  const MaxRecommendations: nat := 10

  const MultilingualTerms: seq<string> := ["international", "global", "abroad", "overseas"]

  const TechnicalTerms: seq<string> := [
    "developer", "engineer", "programmer", "software", "data",
    "python", "java", "javascript", "react", "angular", "node",
    "ml", "ai", "machine learning", "artificial intelligence",
    "devops", "cloud", "aws", "azure", "docker", "kubernetes"]

  /** `_appears_multilingual`: an international term in the personal information, the jobs or the education. */
  predicate AppearsMultilingual(r: ResumeContent)
  {
    MentionsAny(PersonalValues(Personal(r)) + FlatMap(r.workExperience, JobValues) + FlatMap(r.education, EducationValues),
                MultilingualTerms)
  }

  /** `_appears_technical`: a technical term in the jobs, the skills or the projects. */
  predicate AppearsTechnical(r: ResumeContent)
  {
    MentionsAny(FlatMap(r.workExperience, JobValues) + FlatMap(r.skills, SkillCategoryValues) + FlatMap(r.projects, ProjectValues),
                TechnicalTerms)
  }

  /** Some responsibility holds a digit. */
  predicate HasNumbers(responsibilities: seq<string>)
  {
    exists i | 0 <= i < |responsibilities| :: HasDigit(responsibilities[i])
  }

  function JobRecommendations(job: WorkExperience): (recs: seq<Recommendation>)
    ensures forall x :: x in recs ==> x.MoreResponsibilities? || x.QuantifyAchievements?
  {
    (if |job.responsibilities| < 3 then [MoreResponsibilities(job.jobTitle)] else [])
    + (if HasNumbers(job.responsibilities) then [] else [QuantifyAchievements])
  }

  function JobsRecommendations(work: seq<WorkExperience>): (recs: seq<Recommendation>)
    ensures forall x :: x in recs ==> x.MoreResponsibilities? || x.QuantifyAchievements?
  {
    if work == [] then []
    else JobsRecommendations(work[..|work| - 1]) + JobRecommendations(work[|work| - 1])
  }

  function SummaryRecommendations(summary: string): (recs: seq<Recommendation>)
    ensures AddSummary in recs <==> summary == []
    ensures ExpandSummary in recs <==> 0 < |summary| < 50
    ensures forall x :: x in recs ==> x.AddSummary? || x.ExpandSummary?
  {
    if summary == [] then [AddSummary] else if |summary| < 50 then [ExpandSummary] else []
  }

  function WorkRecommendations(work: seq<WorkExperience>): (recs: seq<Recommendation>)
    ensures AddWorkExperience in recs <==> work == []
    ensures forall x :: x in recs ==> x.AddWorkExperience? || x.MoreResponsibilities? || x.QuantifyAchievements?
  {
    if work == [] then [AddWorkExperience] else JobsRecommendations(work)
  }

  function If(c: bool, rec: Recommendation): (recs: seq<Recommendation>)
    ensures rec in recs <==> c
    ensures forall x :: x in recs ==> x == rec
  {
    if c then [rec] else []
  }

  /** The rules about the education, skills and optional sections. */
  function LaterSectionRecommendations(r: ResumeContent): (recs: seq<Recommendation>)
    ensures AddEducation in recs <==> r.education == []
    ensures AddCertifications in recs <==> r.certifications == []
    ensures AddProjects in recs <==> r.projects == []
    ensures AddSummary !in recs && ExpandSummary !in recs && AddWorkExperience !in recs
    ensures AddLinkedIn !in recs && AddGitHub !in recs && FixValidationErrors !in recs
  {
    If(r.education == [], AddEducation)
    + If(SkillTotal(r.skills) < 5, AddSkills)
    + If(r.certifications == [], AddCertifications)
    + If(r.projects == [], AddProjects)
    + If(r.languages == [] && AppearsMultilingual(r), AddLanguages)
  }

  /** The rules about the summary and the work history. */
  function OpeningRecommendations(r: ResumeContent): (recs: seq<Recommendation>)
    ensures AddSummary in recs <==> r.professionalSummary == []
    ensures ExpandSummary in recs <==> 0 < |r.professionalSummary| < 50
    ensures AddWorkExperience in recs <==> r.workExperience == []
    ensures AddEducation !in recs && AddCertifications !in recs && AddProjects !in recs
    ensures AddLinkedIn !in recs && AddGitHub !in recs && FixValidationErrors !in recs
  {
    var summary, work := SummaryRecommendations(r.professionalSummary), WorkRecommendations(r.workExperience);
    assert AddSummary !in work && ExpandSummary !in work && AddWorkExperience !in summary;
    summary + work
  }

  /** The rules about the sections themselves, from the summary to the languages. */
  function SectionRecommendations(r: ResumeContent): (recs: seq<Recommendation>)
    ensures AddSummary in recs <==> r.professionalSummary == []
    ensures ExpandSummary in recs <==> 0 < |r.professionalSummary| < 50
    ensures AddWorkExperience in recs <==> r.workExperience == []
    ensures AddEducation in recs <==> r.education == []
    ensures AddCertifications in recs <==> r.certifications == []
    ensures AddProjects in recs <==> r.projects == []
    ensures AddLinkedIn !in recs && AddGitHub !in recs && FixValidationErrors !in recs
  {
    var opening, later := OpeningRecommendations(r), LaterSectionRecommendations(r);
    assert AddSummary !in later && ExpandSummary !in later && AddWorkExperience !in later;
    assert AddEducation !in opening && AddCertifications !in opening && AddProjects !in opening;
    assert AddLinkedIn !in opening && AddGitHub !in opening && FixValidationErrors !in opening;
    assert AddLinkedIn !in later && AddGitHub !in later && FixValidationErrors !in later;
    opening + later
  }

  /** The rules about profile links. */
  function LinkRecommendations(r: ResumeContent): (recs: seq<Recommendation>)
    ensures AddLinkedIn in recs <==> Personal(r).linkedinUrl == []
    ensures AddGitHub in recs <==> AppearsTechnical(r) && Personal(r).githubUrl == []
    ensures forall x :: x in recs ==> x.AddLinkedIn? || x.AddGitHub?
  {
    If(Personal(r).linkedinUrl == [], AddLinkedIn)
    + If(AppearsTechnical(r) && Personal(r).githubUrl == [], AddGitHub)
  }

  /** Every rule of `_generate_recommendations`, in order, before the cut to ten. */
  function AllRecommendations(r: ResumeContent, hasErrors: bool): seq<Recommendation>
  {
    SectionRecommendations(r) + LinkRecommendations(r) + If(hasErrors, FixValidationErrors)
  }

  /** `_generate_recommendations`: the rules in order, the jobs one by one, cut to the first ten. */
  method GenerateRecommendations(r: ResumeContent, hasErrors: bool) returns (recs: seq<Recommendation>)
    ensures recs == Take(AllRecommendations(r, hasErrors), MaxRecommendations)
  {
    recs := SummaryRecommendations(r.professionalSummary);
    var work := r.workExperience;
    if work == [] {
      recs := recs + [AddWorkExperience];
    } else {
      var jobs: seq<Recommendation> := [];
      var i := 0;
      while i < |work|
        invariant 0 <= i <= |work|
        invariant jobs == JobsRecommendations(work[..i])
      {
        jobs := jobs + JobRecommendations(work[i]);
        assert work[..i + 1][..i] == work[..i];
        i := i + 1;
      }
      assert work[..i] == work;
      recs := recs + jobs;
    }
    recs := recs + LaterSectionRecommendations(r);
    recs := recs + LinkRecommendations(r) + If(hasErrors, FixValidationErrors);
    recs := Take(recs, MaxRecommendations);
  }

  /** The summary advice follows the summary's length; the work advice, an empty work history. */
  lemma SummaryAndWorkTriggers(r: ResumeContent, hasErrors: bool)
    ensures var all := AllRecommendations(r, hasErrors);
      (AddSummary in all <==> r.professionalSummary == [])
      && (ExpandSummary in all <==> 0 < |r.professionalSummary| < 50)
      && (AddWorkExperience in all <==> r.workExperience == [])
  {
    var sections, links := SectionRecommendations(r), LinkRecommendations(r);
    var fix := If(hasErrors, FixValidationErrors);
    assert AllRecommendations(r, hasErrors) == sections + links + fix;
  }

  /** The education, certification and project advice follows the section being empty. */
  lemma SectionTriggers(r: ResumeContent, hasErrors: bool)
    ensures var all := AllRecommendations(r, hasErrors);
      (AddEducation in all <==> r.education == [])
      && (AddCertifications in all <==> r.certifications == [])
      && (AddProjects in all <==> r.projects == [])
  {
    var sections, links := SectionRecommendations(r), LinkRecommendations(r);
    var fix := If(hasErrors, FixValidationErrors);
    assert AllRecommendations(r, hasErrors) == sections + links + fix;
  }

  /**
   * The LinkedIn advice follows a missing LinkedIn link, the GitHub advice
   * needs a technical résumé without a GitHub link, and the last advice
   * appears exactly when the résumé has validation errors.
   */
  lemma LinkAndErrorTriggers(r: ResumeContent, hasErrors: bool)
    ensures var all := AllRecommendations(r, hasErrors);
      (AddLinkedIn in all <==> Personal(r).linkedinUrl == [])
      && (AddGitHub in all <==> AppearsTechnical(r) && Personal(r).githubUrl == [])
      && (FixValidationErrors in all <==> hasErrors)
  {
    var sections, links := SectionRecommendations(r), LinkRecommendations(r);
    var fix := If(hasErrors, FixValidationErrors);
    assert AllRecommendations(r, hasErrors) == sections + links + fix;
  }

  /** Each job with fewer than three responsibilities gets its own advice, named by its title. */
  lemma {:induction false} ShortJobsAdvised(work: seq<WorkExperience>, k: nat)
    requires k < |work| && |work[k].responsibilities| < 3
    ensures MoreResponsibilities(work[k].jobTitle) in JobsRecommendations(work)
  {
    var init := work[..|work| - 1];
    if k < |init| {
      ShortJobsAdvised(init, k);
      assert init[k] == work[k];
    }
  }

  /** At most ten recommendations, and they are the first ten rules that fire. */
  lemma RecommendationsBounded(r: ResumeContent, hasErrors: bool)
    ensures var recs := Take(AllRecommendations(r, hasErrors), MaxRecommendations);
      |recs| <= 10 && (|AllRecommendations(r, hasErrors)| <= 10 ==> recs == AllRecommendations(r, hasErrors))
  {
  }

  // ---------------------------------------------------------------------------
  // Résumé score

  /** The quality points of `_calculate_resume_score`, out of 51. */
  function QualityScore(r: ResumeContent): (q: nat)
    ensures q <= 51
  {
    var summary := r.professionalSummary;
    var work := r.workExperience;
    (if summary != [] && |summary| >= 100 then 5 else 0)
    + (if summary != [] && WordCount(summary) >= 20 then 5 else 0)
    + (if work != [] && ResponsibilityTotal(work) >= 3 * |work| then 10 else 0)
    + (if exists k | 0 <= k < |work| :: HasNumbers(work[k].responsibilities) then 10 else 0)
    + (if SkillTotal(r.skills) >= 10 then 5 else 0)
    + (if |r.skills| >= 2 then 5 else 0)
    + (if r.certifications != [] then 2 else 0)
    + (if r.projects != [] then 2 else 0)
    + (if r.languages != [] then 2 else 0)
    + (if Personal(r).linkedinUrl != [] then 3 else 0)
    + (if Personal(r).portfolioUrl != [] || Personal(r).githubUrl != [] then 2 else 0)
  }

  /** `min(100, int(completeness * 0.6 + quality * 0.4))`. */
  function ResumeScore(completeness: int, r: ResumeContent): int
  {
    Min(100, Trunc(completeness as real * 0.6 + QualityScore(r) as real * 0.4))
  }

  /**
   * With a completeness from 0 to 100 the score lies between 0 and 80: the
   * completeness brings at most 60 points and the quality at most 20.4, so
   * the cap at 100 never applies. A higher completeness never lowers it.
   */
  lemma ResumeScoreBounds(completeness: int, r: ResumeContent)
    requires 0 <= completeness <= 100
    ensures 0 <= ResumeScore(completeness, r) <= 80
    ensures Trunc(completeness as real * 0.6) <= ResumeScore(completeness, r)
  {
    var x := completeness as real * 0.6 + QualityScore(r) as real * 0.4;
    assert x <= 80.4;
    TruncMonotone(completeness as real * 0.6, x);
  }

  lemma ResumeScoreMonotone(c1: int, c2: int, r: ResumeContent)
    requires 0 <= c1 <= c2
    ensures ResumeScore(c1, r) <= ResumeScore(c2, r)
  {
    TruncMonotone(c1 as real * 0.6 + QualityScore(r) as real * 0.4, c2 as real * 0.6 + QualityScore(r) as real * 0.4);
  }

  // ---------------------------------------------------------------------------
  // Validating a résumé and a single section

  datatype ResumeValidation = ResumeValidation(
    isValid: bool,
    completenessPercentage: int,
    validationErrors: seq<ValidationError>,
    recommendations: seq<Recommendation>,
    missingRequiredFields: seq<string>,
    score: int)

  /** `validate_resume_content` of the service; `currentYear` stands for the clock. */
  method ValidateResume(r: ResumeContent, currentYear: int) returns (v: ResumeValidation)
    ensures v.validationErrors == ContentErrors(r, currentYear) && v.isValid == (v.validationErrors == [])
    ensures v.completenessPercentage
      == CompletenessPercentage(CompleteCount(RequiredSectionData(r)), CompleteCount(OptionalSectionData(r)))
    ensures v.missingRequiredFields == IncompleteNames(RequiredSectionData(r))
    ensures v.recommendations == Take(AllRecommendations(r, !v.isValid), MaxRecommendations)
    ensures v.score == ResumeScore(v.completenessPercentage, r)
  {
    var valid, errors := ValidateResumeContent(r, currentYear);
    var completeness := CalculateCompleteness(r);
    var recs := GenerateRecommendations(r, errors != []);
    var score := ResumeScore(completeness.percentage, r);
    v := ResumeValidation(valid, completeness.percentage, errors, recs, completeness.missing, score);
  }

  /** The data handed to `validate_section`, one variant per section validator. */
  datatype SectionInput =
    | PersonalInput(personal: PersonalInfo)
    | WorkInput(work: seq<WorkExperience>)
    | EducationInput(education: seq<Education>)
    | SkillsInput(skills: RawSkills)
    | CertificationsInput(certifications: seq<Certification>)
    | ProjectsInput(projects: seq<Project>)
    | LanguagesInput(languages: seq<Language>)

  /** The section type whose validator reads this input. */
  function InputSectionType(input: SectionInput): string
  {
    match input
    case PersonalInput(_) => "personal_info"
    case WorkInput(_) => "work_experience"
    case EducationInput(_) => "education"
    case SkillsInput(_) => "skills"
    case CertificationsInput(_) => "certifications"
    case ProjectsInput(_) => "projects"
    case LanguagesInput(_) => "languages"
  }

  const SectionTypes: seq<string> :=
    ["personal_info", "work_experience", "education", "skills", "certifications", "projects", "languages"]

  function InputErrors(input: SectionInput, currentYear: int): seq<ValidationError>
  {
    match input
    case PersonalInput(p) => PersonalErrors(p)
    case WorkInput(work) => SectionErrors(WorkSection, work, JobIssues)
    case EducationInput(education) => SectionErrors(EducationSection, education, EducationCheck(currentYear))
    case SkillsInput(skills) => SkillsErrors(skills)
    case CertificationsInput(certs) => SectionErrors(CertificationSection, certs, CertificationIssues)
    case ProjectsInput(projects) => SectionErrors(ProjectSection, projects, ProjectIssues)
    case LanguagesInput(languages) => SectionErrors(LanguageSection, languages, LanguageIssues)
  }

  datatype SectionMessage = UnknownSectionType(sectionType: string) | Invalid(error: ValidationError)

  datatype SectionValidation = SectionValidation(isValid: bool, completeness: int, errors: seq<SectionMessage>)

  /**
   * `validate_section`: an unknown type is answered at once; otherwise the
   * named validator runs. Data that the named validator cannot read is a
   * failure of the call.
   */
  function ValidateSection(sectionType: string, input: SectionInput, currentYear: int): (r: Result<SectionValidation, string>)
    ensures sectionType !in SectionTypes ==> r == Ok(SectionValidation(false, 0, [UnknownSectionType(sectionType)]))
    ensures r.Err? <==> sectionType in SectionTypes && sectionType != InputSectionType(input)
    ensures sectionType == InputSectionType(input) ==>
      && r.Ok?
      && (r.value.isValid <==> InputErrors(input, currentYear) == [])
      && r.value.completeness == (if r.value.isValid then 100 else 0)
      && |r.value.errors| == |InputErrors(input, currentYear)|
      && forall i :: 0 <= i < |r.value.errors| ==> r.value.errors[i] == Invalid(InputErrors(input, currentYear)[i])
  {
    assert InputSectionType(input) in SectionTypes;
    if sectionType !in SectionTypes then
      Ok(SectionValidation(false, 0, [UnknownSectionType(sectionType)]))
    else if sectionType != InputSectionType(input) then
      Err("the section data does not have the shape of the named section")
    else
      var errors := InputErrors(input, currentYear);
      Ok(SectionValidation(errors == [], if errors == [] then 100 else 0,
                                seq(|errors|, i requires 0 <= i < |errors| => Invalid(errors[i]))))
  }
}
