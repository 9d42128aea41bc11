/**
 * The résumé analysis service: the text of a résumé, the formatting,
 * keyword, content-structure and readability analyses, their weighted
 * overall score, the skill-gap analysis, the prioritised recommendations and
 * the industry insights, and the analysis entry point that ties them
 * together.
 */
module AtsAnalysis {
  import opened Wrappers
  import opened Text
  import opened ResumeData
  import opened Basics
  import Keywords

  // ---------------------------------------------------------------------------
  // The text of a résumé

  /** The name part: first and last name joined and stripped, when either is set. */
  function NameParts(r: ResumeContent): seq<string>
  {
    var p := Personal(r);
    if p.firstName != [] || p.lastName != [] then [Strip(p.firstName + " " + p.lastName)] else []
  }

  function JobParts(job: WorkExperience): seq<string>
  {
    IfPresent(job.jobTitle) + IfPresent(job.company) + NonEmptyStrings(job.responsibilities)
  }

  function EducationParts(edu: Education): seq<string>
  {
    IfPresent(edu.degree) + IfPresent(edu.institution) + IfPresent(edu.fieldOfStudy)
  }

  function SkillParts(category: SkillCategory): seq<string>
  {
    NonEmptyStrings(category.items)
  }

  function ProjectParts(project: Project): seq<string>
  {
    IfPresent(project.name) + IfPresent(project.description) + NonEmptyStrings(project.technologies)
  }

  function CertificationParts(cert: Certification): seq<string>
  {
    IfPresent(cert.name) + IfPresent(cert.issuer)
  }

  /**
   * The text parts in the order the service collects them: name, summary,
   * work experience, education, skills, projects and certifications (the
   * languages section contributes nothing).
   */
  function TextParts(r: ResumeContent): seq<string>
  {
    NameParts(r)
    + (if r.professionalSummary != [] then [Strip(r.professionalSummary)] else [])
    + FlatMap(r.workExperience, JobParts)
    + FlatMap(r.education, EducationParts)
    + FlatMap(r.skills, SkillParts)
    + FlatMap(r.projects, ProjectParts)
    + FlatMap(r.certifications, CertificationParts)
  }

  /** The text of a résumé: its stripped, non-blank parts joined by single spaces. */
  function ResumeText(r: ResumeContent): string
  {
    Join(KeptParts(TextParts(r)), " ")
  }

  /** The collecting half of `_extract_resume_text`. */
  method CollectTextParts(r: ResumeContent) returns (parts: seq<string>)
    ensures parts == TextParts(r)
  {
    parts := NameParts(r);
    if r.professionalSummary != [] {
      parts := parts + [Strip(r.professionalSummary)];
    }
    parts := AppendParts(parts, r.workExperience, JobParts);
    parts := AppendParts(parts, r.education, EducationParts);
    parts := AppendParts(parts, r.skills, SkillParts);
    parts := AppendParts(parts, r.projects, ProjectParts);
    parts := AppendParts(parts, r.certifications, CertificationParts);
  }

  /** `_extract_resume_text`. */
  method ExtractResumeText(r: ResumeContent) returns (text: string)
    ensures text == ResumeText(r)
    ensures text == [] <==> forall p :: p in TextParts(r) ==> IsBlank(p)
    ensures text != [] ==> WordCount(text) > 0
  {
    var parts := CollectTextParts(r);
    text := Join(KeptParts(parts), " ");
    JoinedPartsEmptyIff(parts);
  }

  /** A stripped string that is not empty starts with a non-space character. */
  lemma StripStartsWithNonSpace(s: string)
    ensures Strip(s) != [] ==> !IsSpace(Strip(s)[0])
  {
    var t := TrimStart(s);
    assert Strip(s) == t[..|Strip(s)|];
  }

  lemma KeptPartsShape(parts: seq<string>)
    ensures forall p :: p in KeptParts(parts) ==> p != [] && !IsSpace(p[0])
    ensures KeptParts(parts) == [] <==> forall p :: p in parts ==> IsBlank(p)
  {
    KeptPartsStart(parts);
    KeptPartsEmptyIff(parts);
  }

  /** Every kept part is non-empty and starts with a non-space character. */
  lemma {:induction false} KeptPartsStart(parts: seq<string>)
    ensures forall p :: p in KeptParts(parts) ==> p != [] && !IsSpace(p[0])
  {
    if parts != [] {
      var init, last := parts[..|parts| - 1], Strip(parts[|parts| - 1]);
      KeptPartsStart(init);
      StripStartsWithNonSpace(parts[|parts| - 1]);
      assert KeptParts(parts) == KeptParts(init) + (if last != [] then [last] else []);
      forall p | p in KeptParts(parts)
        ensures p != [] && !IsSpace(p[0])
      {
        if p !in KeptParts(init) {
          assert p == last;
        }
      }
    }
  }

  /** Nothing is kept exactly when every part is blank. */
  lemma {:induction false} KeptPartsEmptyIff(parts: seq<string>)
    ensures KeptParts(parts) == [] <==> forall p :: p in parts ==> IsBlank(p)
  {
    if parts != [] {
      var init, last := parts[..|parts| - 1], parts[|parts| - 1];
      KeptPartsEmptyIff(init);
      StripEmptyIffBlank(last);
      assert forall p :: p in parts <==> p in init || p == last;
    }
  }

  /** The joined kept parts start with the first kept part. */
  lemma JoinedPartsEmptyIff(parts: seq<string>)
    ensures Join(KeptParts(parts), " ") == [] <==> forall p :: p in parts ==> IsBlank(p)
    ensures Join(KeptParts(parts), " ") != [] ==> WordCount(Join(KeptParts(parts), " ")) > 0
  {
    var kept := KeptParts(parts);
    var text := Join(kept, " ");
    KeptPartsShape(parts);
    if kept != [] {
      assert kept[0] in kept;
      JoinStartsWithFirst(kept);
      assert text[0] == kept[0][0];
      NoWordsIffBlank(text);
    }
  }

  /** The text is empty exactly when every part is blank. */
  lemma ResumeTextEmptyIff(r: ResumeContent)
    ensures ResumeText(r) == [] <==> forall p :: p in TextParts(r) ==> IsBlank(p)
  {
    JoinedPartsEmptyIff(TextParts(r));
  }

  /** A non-empty text has at least one word. */
  lemma ResumeTextHasWords(r: ResumeContent)
    ensures ResumeText(r) != [] ==> WordCount(ResumeText(r)) > 0
  {
    JoinedPartsEmptyIff(TextParts(r));
  }

  /** An empty résumé has no text. */
  lemma EmptyContentHasNoText(r: ResumeContent)
    requires IsEmptyContent(r)
    ensures ResumeText(r) == []
  {
    assert TextParts(r) == [];
  }

  // ---------------------------------------------------------------------------
  // Formatting

  /** A formatting problem; job numbers count from 1, as in the messages. */
  datatype FormattingIssue =
    | MissingSection(section: string)
    | MissingPersonalField(field: string)
    | MissingSummary
    | MissingJobTitle(job: nat)
    | MissingCompany(job: nat)
    | MissingResponsibilities(job: nat)
    | InconsistentDates

  /** What each problem costs the formatting score. */
  function Penalty(issue: FormattingIssue): nat
  {
    match issue
    case MissingSection(_) => 15
    case MissingPersonalField(_) => 5
    case MissingSummary => 10
    case MissingJobTitle(_) => 5
    case MissingCompany(_) => 5
    case MissingResponsibilities(_) => 5
    case InconsistentDates => 5
  }

  function TotalPenalty(issues: seq<FormattingIssue>): nat
  {
    if issues == [] then 0 else TotalPenalty(issues[..|issues| - 1]) + Penalty(issues[|issues| - 1])
  }

  const SummaryAdvice := "Add a professional summary to highlight your key qualifications"
  const DateAdvice := "Use consistent date format (YYYY-MM) throughout resume"

  datatype FormattingReport = FormattingReport(
    score: int,
    issues: seq<FormattingIssue>,
    recommendations: seq<string>)

  /** The four sections the formatting check requires, when they are falsy. */
  function MissingSectionIssues(r: ResumeContent): (issues: seq<FormattingIssue>)
    ensures forall i :: 0 <= i < |issues| ==> issues[i].MissingSection?
  {
    (if r.personalInfo.None? then [MissingSection("personal_info")] else [])
    + (if r.workExperience == [] then [MissingSection("work_experience")] else [])
    + (if r.education == [] then [MissingSection("education")] else [])
    + (if r.skills == [] then [MissingSection("skills")] else [])
  }

  /** First and last name, email and phone, when falsy. */
  function MissingPersonalIssues(p: PersonalInfo): (issues: seq<FormattingIssue>)
    ensures forall i :: 0 <= i < |issues| ==> issues[i].MissingPersonalField?
  {
    (if p.firstName == [] then [MissingPersonalField("first_name")] else [])
    + (if p.lastName == [] then [MissingPersonalField("last_name")] else [])
    + (if p.email == [] then [MissingPersonalField("email")] else [])
    + (if p.phone == [] then [MissingPersonalField("phone")] else [])
  }

  /** The problems of the job numbered `n`. */
  function JobIssues(job: WorkExperience, n: nat): (issues: seq<FormattingIssue>)
    ensures forall i :: 0 <= i < |issues| ==> Penalty(issues[i]) == 5
  {
    (if job.jobTitle == [] then [MissingJobTitle(n)] else [])
    + (if job.company == [] then [MissingCompany(n)] else [])
    + (if job.responsibilities == [] then [MissingResponsibilities(n)] else [])
  }

  function WorkIssues(work: seq<WorkExperience>): seq<FormattingIssue>
  {
    if work == [] then [] else WorkIssues(work[..|work| - 1]) + JobIssues(work[|work| - 1], |work|)
  }

  /** `set(len(date) for date in date_formats)`. */
  function DateLengths(dates: seq<string>): set<nat>
  {
    set d | d in dates :: |d|
  }

  /** Dates are inconsistent when they do not all have the same length. */
  predicate DatesInconsistent(work: seq<WorkExperience>)
  {
    |DateLengths(WorkDates(work))| > 1
  }

  function SummaryIssues(r: ResumeContent): seq<FormattingIssue>
  {
    if r.professionalSummary == [] then [MissingSummary] else []
  }

  function DateIssues(work: seq<WorkExperience>): seq<FormattingIssue>
  {
    if DatesInconsistent(work) then [InconsistentDates] else []
  }

  /** Every formatting problem of a résumé, in the order the service reports them. */
  function FormattingIssues(r: ResumeContent): seq<FormattingIssue>
  {
    MissingSectionIssues(r)
    + MissingPersonalIssues(Personal(r))
    + SummaryIssues(r)
    + WorkIssues(r.workExperience)
    + DateIssues(r.workExperience)
  }

  function FormattingAdvice(r: ResumeContent): seq<string>
  {
    (if r.professionalSummary == [] then [SummaryAdvice] else [])
    + (if DatesInconsistent(r.workExperience) then [DateAdvice] else [])
  }

  lemma {:induction false} TotalPenaltyAppend(a: seq<FormattingIssue>, b: seq<FormattingIssue>)
    ensures TotalPenalty(a + b) == TotalPenalty(a) + TotalPenalty(b)
    decreases |b|
  {
    if b != [] {
      var b' := b[..|b| - 1];
      assert (a + b)[..|a + b| - 1] == a + b';
      TotalPenaltyAppend(a, b');
    } else {
      assert a + b == a;
    }
  }

  lemma {:induction false} UniformPenalty(issues: seq<FormattingIssue>, p: nat)
    requires forall i :: 0 <= i < |issues| ==> Penalty(issues[i]) == p
    ensures TotalPenalty(issues) == p * |issues|
  {
    if issues != [] {
      UniformPenalty(issues[..|issues| - 1], p);
    }
  }

  /** The checks `_analyze_formatting` makes on the job numbered `n`. */
  method CheckJob(job: WorkExperience, n: nat, issues0: seq<FormattingIssue>, score0: int)
    returns (issues: seq<FormattingIssue>, score: int)
    ensures issues == issues0 + JobIssues(job, n)
    ensures score == score0 - TotalPenalty(JobIssues(job, n))
  {
    issues, score := issues0, score0;
    if job.jobTitle == [] {
      score := score - 5;
      issues := issues + [MissingJobTitle(n)];
    }
    if job.company == [] {
      score := score - 5;
      issues := issues + [MissingCompany(n)];
    }
    if job.responsibilities == [] {
      score := score - 5;
      issues := issues + [MissingResponsibilities(n)];
    }
    UniformPenalty(JobIssues(job, n), 5);
  }

  /** The per-job loop of `_analyze_formatting`. */
  method CheckJobs(work: seq<WorkExperience>, start: seq<FormattingIssue>, score0: int)
    returns (issues: seq<FormattingIssue>, score: int)
    ensures issues == start + WorkIssues(work)
    ensures score == score0 - TotalPenalty(WorkIssues(work))
  {
    issues, score := start, score0;
    var i := 0;
    while i < |work|
      invariant 0 <= i <= |work|
      invariant issues == start + WorkIssues(work[..i])
      invariant score == score0 - TotalPenalty(WorkIssues(work[..i]))
    {
      ghost var issues0, score1 := issues, score;
      issues, score := CheckJob(work[i], i + 1, issues, score);
      CheckJobsStep(work, i, start, score0, issues0, score1, issues, score);
      i := i + 1;
    }
    assert work[..i] == work;
  }

  /** One turn of the per-job loop extends the issues and the penalty by that job's. */
  lemma CheckJobsStep(work: seq<WorkExperience>, i: nat, start: seq<FormattingIssue>, score0: int,
                      issues0: seq<FormattingIssue>, score1: int, issues: seq<FormattingIssue>, score: int)
    requires i < |work|
    requires issues0 == start + WorkIssues(work[..i]) && score1 == score0 - TotalPenalty(WorkIssues(work[..i]))
    requires issues == issues0 + JobIssues(work[i], i + 1) && score == score1 - TotalPenalty(JobIssues(work[i], i + 1))
    ensures issues == start + WorkIssues(work[..i + 1])
    ensures score == score0 - TotalPenalty(WorkIssues(work[..i + 1]))
  {
    WorkIssuesStep(work, i);
    TotalPenaltyAppend(WorkIssues(work[..i]), JobIssues(work[i], i + 1));
    ConcatAssoc(start, WorkIssues(work[..i]), JobIssues(work[i], i + 1));
  }

  lemma WorkIssuesStep(work: seq<WorkExperience>, i: nat)
    requires i < |work|
    ensures WorkIssues(work[..i + 1]) == WorkIssues(work[..i]) + JobIssues(work[i], i + 1)
  {
    assert work[..i + 1][..i] == work[..i];
  }

  lemma ConcatAssoc<T>(a: seq<T>, b: seq<T>, c: seq<T>)
    ensures a + b + c == a + (b + c)
  {
  }

  /** The date-consistency check of `_analyze_formatting`. */
  method CheckDates(work: seq<WorkExperience>) returns (inconsistent: bool)
    ensures inconsistent == DatesInconsistent(work)
  {
    var dates := AppendParts([], work, JobDates);
    assert dates == WorkDates(work);
    var lengths := set d | d in dates :: |d|;
    inconsistent := |lengths| > 1;
  }

  /** The section and contact-field checks that open `_analyze_formatting`. */
  method CheckSectionsAndContact(r: ResumeContent) returns (issues: seq<FormattingIssue>, score: int)
    ensures issues == MissingSectionIssues(r) + MissingPersonalIssues(Personal(r))
    ensures score == 100 - TotalPenalty(issues)
  {
    score := 100;
    issues := MissingSectionIssues(r);
    UniformPenalty(issues, 15);
    score := score - |issues| * 15;
    var personal := MissingPersonalIssues(Personal(r));
    UniformPenalty(personal, 5);
    TotalPenaltyAppend(issues, personal);
    score := score - |personal| * 5;
    issues := issues + personal;
  }

  /** The professional-summary check of `_analyze_formatting`. */
  method CheckSummary(r: ResumeContent, issues0: seq<FormattingIssue>, score0: int)
    returns (issues: seq<FormattingIssue>, score: int, advice: seq<string>)
    ensures issues == issues0 + SummaryIssues(r)
    ensures score == score0 - TotalPenalty(SummaryIssues(r))
    ensures advice == if r.professionalSummary == [] then [SummaryAdvice] else []
  {
    issues, score, advice := issues0, score0, [];
    if r.professionalSummary == [] {
      score := score - 10;
      issues := issues + [MissingSummary];
      advice := advice + [SummaryAdvice];
    }
    assert TotalPenalty(SummaryIssues(r)) == if r.professionalSummary == [] then 10 else 0;
  }

  /** The date-consistency step of `_analyze_formatting`. */
  method CheckDateConsistency(work: seq<WorkExperience>, issues0: seq<FormattingIssue>, score0: int,
                              advice0: seq<string>)
    returns (issues: seq<FormattingIssue>, score: int, advice: seq<string>)
    ensures issues == issues0 + DateIssues(work)
    ensures score == score0 - TotalPenalty(DateIssues(work))
    ensures advice == advice0 + if DatesInconsistent(work) then [DateAdvice] else []
  {
    issues, score, advice := issues0, score0, advice0;
    var inconsistent := CheckDates(work);
    if inconsistent {
      score := score - 5;
      issues := issues + [InconsistentDates];
      advice := advice + [DateAdvice];
    }
    assert TotalPenalty(DateIssues(work)) == if inconsistent then 5 else 0;
  }

  /**
   * `_analyze_formatting`: the score is 100 less the penalty of every
   * reported problem, floored at 0.
   */
  function FormattingScore(r: ResumeContent): int { Max0(100 - TotalPenalty(FormattingIssues(r))) }

  /** What `_analyze_formatting` reports for a résumé. */
  predicate FormattingOf(report: FormattingReport, r: ResumeContent)
  {
    && report.issues == FormattingIssues(r)
    && report.score == FormattingScore(r)
    && report.recommendations == FormattingAdvice(r)
  }

  method AnalyzeFormatting(r: ResumeContent) returns (report: FormattingReport)
    ensures FormattingOf(report, r)
  {
    var issues, score := CheckSectionsAndContact(r);
    ghost var i1 := issues;
    var advice;
    issues, score, advice := CheckSummary(r, issues, score);
    TotalPenaltyAppend(i1, SummaryIssues(r));
    ghost var i2 := issues;
    issues, score := CheckJobs(r.workExperience, issues, score);
    TotalPenaltyAppend(i2, WorkIssues(r.workExperience));
    ghost var i3 := issues;
    issues, score, advice := CheckDateConsistency(r.workExperience, issues, score, advice);
    TotalPenaltyAppend(i3, DateIssues(r.workExperience));
    report := FormattingReport(Max0(score), issues, advice);
  }

  /** Every problem costs something, so only a résumé without problems scores 100. */
  lemma {:induction false} FormattingPerfectIff(issues: seq<FormattingIssue>)
    ensures Max0(100 - TotalPenalty(issues)) == 100 <==> issues == []
  {
    if issues != [] {
      assert TotalPenalty(issues) >= Penalty(issues[|issues| - 1]) > 0;
    }
  }

  /** Dates are inconsistent exactly when two of them differ in length. */
  lemma DatesInconsistentIff(work: seq<WorkExperience>)
    ensures DatesInconsistent(work) <==>
      exists a, b :: a in WorkDates(work) && b in WorkDates(work) && |a| != |b|
  {
    var dates := WorkDates(work);
    var lengths := DateLengths(dates);
    if |lengths| > 1 {
      var x :| x in lengths;
      assert |lengths - {x}| > 0;
      var y :| y in lengths - {x};
      var a :| a in dates && |a| == x;
      var b :| b in dates && |b| == y;
      assert a in dates && b in dates && |a| != |b|;
    }
    if exists a, b :: a in dates && b in dates && |a| != |b| {
      var a, b :| a in dates && b in dates && |a| != |b|;
      SubsetCardinality({|a|, |b|}, lengths);
    }
  }

  // ---------------------------------------------------------------------------
  // Keywords

  /** +10 for a keyword density of 2 to 8 percent, -10 above 15 percent. */
  function DensityAdjustment(density: real): int
  {
    if 2.0 <= density <= 8.0 then 10 else if density > 15.0 then -10 else 0
  }

  /**
   * `_calculate_keyword_score` from the counts it looks at: résumé keywords,
   * job keywords and how many of them the résumé has, industry keywords and
   * how many of them the résumé has, and the words of the résumé text.
   */
  function KeywordScore(resumeCount: nat, jobCount: nat, jobMatched: nat,
                        industryCount: nat, industryMatched: nat, wordCount: nat): (score: int)
    ensures 0 <= score <= 100
  {
    var base := if resumeCount > 0 then Min(50, resumeCount * 2) else 0;
    var job := if jobCount > 0 then Trunc(jobMatched as real / jobCount as real * 30.0) else 0;
    var industry :=
      if industryCount > 0 then Trunc(industryMatched as real / industryCount as real * 20.0) else 0;
    var density :=
      if wordCount > 0 then DensityAdjustment(resumeCount as real / wordCount as real * 100.0) else 0;
    Clamp100(base + job + industry + density)
  }

  /** The job-match bonus is at most 30 points and reaches 30 on a full match. */
  lemma JobBonusRange(jobCount: nat, jobMatched: nat)
    requires 0 < jobCount && jobMatched <= jobCount
    ensures 0 <= Trunc(jobMatched as real / jobCount as real * 30.0) <= 30
    ensures jobMatched == jobCount ==> Trunc(jobMatched as real / jobCount as real * 30.0) == 30
  {
    var ratio := jobMatched as real / jobCount as real;
    ShareBounds(jobMatched, jobCount);
    TruncMonotone(ratio * 30.0, 30.0);
  }

  /** Matching more of the job's or the industry's keywords never lowers the score. */
  lemma KeywordScoreMonotone(resumeCount: nat, jobCount: nat, jobMatched: nat, jobMatched': nat,
                             industryCount: nat, industryMatched: nat, industryMatched': nat,
                             wordCount: nat)
    requires jobMatched <= jobMatched' && industryMatched <= industryMatched'
    ensures KeywordScore(resumeCount, jobCount, jobMatched, industryCount, industryMatched, wordCount)
         <= KeywordScore(resumeCount, jobCount, jobMatched', industryCount, industryMatched', wordCount)
  {
    if jobCount > 0 {
      ShareMonotone(jobMatched, jobMatched', jobCount);
      TruncMonotone(jobMatched as real / jobCount as real * 30.0, jobMatched' as real / jobCount as real * 30.0);
    }
    if industryCount > 0 {
      ShareMonotone(industryMatched, industryMatched', industryCount);
      TruncMonotone(industryMatched as real / industryCount as real * 20.0,
                    industryMatched' as real / industryCount as real * 20.0);
    }
  }

  datatype KeywordAnalysis = KeywordAnalysis(
    score: int,
    totalKeywords: nat,
    industryKeywords: seq<string>,
    jobKeywords: set<string>,
    matchedKeywords: set<string>,
    missingKeywords: set<string>,
    keywordDensity: real,
    jobMatchPercentage: Option<real>)

  /** The keywords of the lower-cased résumé text. */
  function ResumeKeywords(r: ResumeContent): set<string>
  {
    Keywords.KeywordSet(Lower(ResumeText(r)))
  }

  /** The keywords of the job description; none without one. */
  function JobKeywords(job: string): set<string>
  {
    if job != [] then Keywords.KeywordSet(Lower(job)) else {}
  }

  /** Percentage of the job's keywords the résumé has; none without job keywords. */
  function JobMatch(resume: set<string>, job: set<string>): Option<real>
  {
    if job != {} then Some(|resume * job| as real / |job| as real * 100.0) else None
  }

  lemma {:induction false} SubsetOfEverySize<T>(s: set<T>, n: nat)
    requires n <= |s|
    ensures exists t :: t <= s && |t| == n
  {
    if n == 0 {
      var none: set<T> := {};
      assert none <= s && |none| == 0;
    } else {
      var x :| x in s;
      SubsetOfEverySize(s - {x}, n - 1);
      var t :| t <= s - {x} && |t| == n - 1;
      assert x !in t;
      assert t + {x} <= s && |t + {x}| == n;
    }
  }

  lemma MatchBounds(resume: set<string>, job: set<string>)
    ensures |resume * job| <= |job|
  {
    SubsetCardinality(resume * job, job);
  }

  /** `[:10]` of the keywords in `candidates`, taken in no particular order. */
  method UpToTen(candidates: set<string>) returns (chosen: set<string>)
    ensures chosen <= candidates && |chosen| == Min(10, |candidates|)
  {
    SubsetOfEverySize(candidates, Min(10, |candidates|));
    chosen :| chosen <= candidates && |chosen| == Min(10, |candidates|);
  }

  method ExtractJobKeywords(job: string) returns (keywords: set<string>)
    requires job != []
    ensures keywords == JobKeywords(job)
  {
    keywords := Keywords.ExtractKeywords(Lower(job));
  }

  /** The job-match half of `_analyze_keywords`, once the job's keywords are known. */
  method MatchJob(resumeKeywords: set<string>, jobKeywords: set<string>)
    returns (jobMatch: Option<real>, missing: set<string>)
    ensures jobMatch == JobMatch(resumeKeywords, jobKeywords)
    ensures missing <= jobKeywords - resumeKeywords
    ensures |missing| == Min(10, |jobKeywords - resumeKeywords|)
    ensures jobMatch.Some? ==> 0.0 <= jobMatch.value <= 100.0
  {
    jobMatch, missing := None, {};
    if jobKeywords != {} {
      var matched := resumeKeywords * jobKeywords;
      MatchBounds(resumeKeywords, jobKeywords);
      ShareBounds(|matched|, |jobKeywords|);
      jobMatch := Some(|matched| as real / |jobKeywords| as real * 100.0);
      missing := UpToTen(jobKeywords - resumeKeywords);
    } else {
      assert jobKeywords - resumeKeywords == {};
    }
  }

  /** `list(set(resume) & set(job)) if job else []`. */
  method MatchedKeywords(resume: set<string>, job: set<string>) returns (matched: set<string>)
    ensures matched == resume * job
  {
    matched := {};
    if job != {} {
      matched := resume * job;
    }
  }

  /** Keywords per hundred words of the lower-cased text, counting an empty text as one word. */
  method KeywordDensity(text: string, keywordCount: nat) returns (density: real)
    requires text == [] || WordCount(Lower(text)) > 0
    ensures density >= 0.0
    ensures text == [] ==> density == keywordCount as real * 100.0
    ensures text != [] ==> density == keywordCount as real / WordCount(Lower(text)) as real * 100.0
  {
    var totalWords := 1;
    if text != [] {
      totalWords := WordCount(Lower(text));
    }
    density := keywordCount as real / totalWords as real * 100.0;
  }

  /**
   * What `_analyze_keywords` reports, given the résumé's keywords, the job's
   * keywords, the industry's keywords and the words of the lower-cased
   * résumé text: the job-match percentage is the share of the job's keywords
   * found in the résumé, and the missing keywords are up to ten of the job
   * keywords the résumé lacks (which ten is left open, as the service takes
   * them from an unordered set).
   */
  predicate IsKeywordAnalysis(ka: KeywordAnalysis, resume: set<string>, job: set<string>,
                              industry: seq<string>, wordCount: nat)
  {
    && ka.totalKeywords == |resume|
    && ka.industryKeywords == industry
    && ka.jobKeywords == job
    && ka.matchedKeywords == resume * job
    && ka.missingKeywords <= job - resume
    && |ka.missingKeywords| == Min(10, |job - resume|)
    && ka.jobMatchPercentage == JobMatch(resume, job)
    && ka.score == KeywordScore(|resume|, |job|, |resume * job|, |industry|,
                                |resume * SetOf(industry)|, wordCount)
  }

  /** The bounds the analysis schema puts on a keyword analysis. */
  predicate KeywordAnalysisInRange(ka: KeywordAnalysis)
  {
    && 0 <= ka.score <= 100
    && ka.keywordDensity >= 0.0
    && (ka.jobMatchPercentage.Some? ==> 0.0 <= ka.jobMatchPercentage.value <= 100.0)
  }

  /** `_analyze_keywords`. */
  predicate KeywordsOf(ka: KeywordAnalysis, r: ResumeContent, job: string, industry: string)
  {
    && IsKeywordAnalysis(ka, ResumeKeywords(r), JobKeywords(job),
                         Keywords.IndustryKeywords(industry), WordCount(Lower(ResumeText(r))))
    && KeywordAnalysisInRange(ka)
  }

  method AnalyzeKeywords(r: ResumeContent, job: string, industry: string) returns (ka: KeywordAnalysis)
    ensures KeywordsOf(ka, r, job, industry)
  {
    var text := ExtractResumeText(r);
    ka := AnalyzeKeywordsOfText(text, job, industry);
  }

  /** `_analyze_keywords` once the résumé text is extracted. */
  method AnalyzeKeywordsOfText(text: string, job: string, industry: string) returns (ka: KeywordAnalysis)
    requires text == [] || WordCount(text) > 0
    ensures IsKeywordAnalysis(ka, Keywords.KeywordSet(Lower(text)), JobKeywords(job),
                              Keywords.IndustryKeywords(industry), WordCount(Lower(text)))
    ensures KeywordAnalysisInRange(ka)
  {
    var textLower := Lower(text);
    var resumeKeywords := Keywords.ExtractKeywords(textLower);
    var industryKeywords: seq<string> := [];
    if industry != [] {
      industryKeywords := Keywords.IndustryKeywords(industry);
    }
    var jobKeywords: set<string> := {};
    if job != [] {
      jobKeywords := ExtractJobKeywords(job);
    }
    var jobMatch, missing := MatchJob(resumeKeywords, jobKeywords);
    var score := KeywordScore(|resumeKeywords|, |jobKeywords|, |resumeKeywords * jobKeywords|,
                              |industryKeywords|, |resumeKeywords * SetOf(industryKeywords)|,
                              WordCount(textLower));
    if text != [] {
      NoWordsIffBlank(text);
      LowerBlankIff(text);
      NoWordsIffBlank(textLower);
    }
    var density := KeywordDensity(text, |resumeKeywords|);
    var matchedList := MatchedKeywords(resumeKeywords, jobKeywords);
    ka := KeywordAnalysis(score, |resumeKeywords|, industryKeywords, jobKeywords, matchedList,
                          missing, density, jobMatch);
  }

  // ---------------------------------------------------------------------------
  // Content structure

  const MinResumeLength := 200
  const OptimalResumeLength := 600
  const MaxResumeLength := 1000

  datatype ContentIssue =
    | TooShort
    | TooLong
    | LacksDetail
    | NoQuantifiableAchievements
    | FewSkills
    | TooManySkills
    | FewActionVerbs

  /** What each content problem costs the content-structure score. */
  function ContentPenalty(issue: ContentIssue): nat
  {
    match issue
    case TooShort => 20
    case TooLong => 10
    case LacksDetail => 15
    case NoQuantifiableAchievements => 15
    case FewSkills => 10
    case TooManySkills => 5
    case FewActionVerbs => 10
  }

  function ContentPenaltyTotal(issues: seq<ContentIssue>): nat
  {
    if issues == [] then 0
    else ContentPenaltyTotal(issues[..|issues| - 1]) + ContentPenalty(issues[|issues| - 1])
  }

  /**
   * A bullet with a quantified result: the lower-cased text matches
   * `\d+[%$]?|\$\d+|increased|reduced|improved|grew|saved`, that is, it has a
   * digit or one of the five words.
   */
  predicate IsQuantified(resp: string)
  {
    var l := Lower(resp);
    HasDigit(l) || Contains(l, "increased") || Contains(l, "reduced") || Contains(l, "improved")
    || Contains(l, "grew") || Contains(l, "saved")
  }

  predicate AnyQuantified(resps: seq<string>)
  {
    exists k | 0 <= k < |resps| :: IsQuantified(resps[k])
  }

  /** `_has_quantifiable_achievements`: some bullet of some job is quantified. */
  predicate HasQuantifiableAchievements(work: seq<WorkExperience>)
  {
    exists j | 0 <= j < |work| :: AnyQuantified(work[j].responsibilities)
  }

  /** `_has_quantifiable_achievements`, stopping at the first quantified bullet. */
  method FindQuantifiableAchievement(work: seq<WorkExperience>) returns (found: bool)
    ensures found == HasQuantifiableAchievements(work)
  {
    var j := 0;
    while j < |work|
      invariant 0 <= j <= |work|
      invariant forall j' :: 0 <= j' < j ==> !AnyQuantified(work[j'].responsibilities)
    {
      var resps := work[j].responsibilities;
      var k := 0;
      while k < |resps|
        invariant 0 <= k <= |resps|
        invariant forall k' :: 0 <= k' < k ==> !IsQuantified(resps[k'])
      {
        if IsQuantified(resps[k]) {
          return true;
        }
        k := k + 1;
      }
      j := j + 1;
    }
    return false;
  }

  /** A bullet that opens with "improved", "increased" or "reduced" is quantified. */
  lemma QuantifyingVerbs(resp: string)
    requires OpeningWord(resp) in {"improved", "increased", "reduced"}
    ensures IsQuantified(resp)
  {
    var l := Lower(resp);
    var ws := Words(l);
    var w := OpeningWord(resp);
    WordsOccur(l, 0);
    var i :| OccursAt(l, ws[0], i);
    assert w == ws[0][..|w|];
    PrefixOccurs(l, ws[0], |w|, i);
    assert OccursAt(l, w, i);
  }

  /**
   * Using one of the action verbs "improved", "increased" or "reduced" also
   * counts as a quantifiable achievement, so the two content checks never
   * both fail on such a résumé.
   */
  lemma QuantifyingVerbsUsed(work: seq<WorkExperience>, v: string)
    requires v in VerbsUsed(work) && v in {"improved", "increased", "reduced"}
    ensures HasQuantifiableAchievements(work)
  {
    VerbsUsedMeaning(work, v);
    var j :| 0 <= j < |work| && OpensBullet(work[j].responsibilities, v);
    var resps := work[j].responsibilities;
    var k :| 0 <= k < |resps| && OpeningWord(resps[k]) == v;
    QuantifyingVerbs(resps[k]);
    assert AnyQuantified(resps);
  }

  function LengthIssues(wordCount: nat): seq<ContentIssue>
  {
    if wordCount < MinResumeLength then [TooShort]
    else if wordCount > MaxResumeLength then [TooLong]
    else []
  }

  /** Fewer than two responsibilities per job on average. */
  function DetailIssues(work: seq<WorkExperience>): seq<ContentIssue>
  {
    if work != [] && ResponsibilityTotal(work) < 2 * |work| then [LacksDetail] else []
  }

  function QuantifiedIssues(work: seq<WorkExperience>): seq<ContentIssue>
  {
    if !HasQuantifiableAchievements(work) then [NoQuantifiableAchievements] else []
  }

  function SkillCountIssues(skills: seq<SkillCategory>): seq<ContentIssue>
  {
    if SkillTotal(skills) < 5 then [FewSkills]
    else if SkillTotal(skills) > 30 then [TooManySkills]
    else []
  }

  function VerbIssues(work: seq<WorkExperience>): seq<ContentIssue>
  {
    if |VerbsUsed(work)| < 3 then [FewActionVerbs] else []
  }

  function ContentIssuesOf(wordCount: nat, work: seq<WorkExperience>, skills: seq<SkillCategory>)
    : seq<ContentIssue>
  {
    LengthIssues(wordCount) + DetailIssues(work) + QuantifiedIssues(work)
    + SkillCountIssues(skills) + VerbIssues(work)
  }

  /** Every content problem of a résumé, in the order the service reports them. */
  function ContentIssues(r: ResumeContent): seq<ContentIssue>
  {
    ContentIssuesOf(WordCount(ResumeText(r)), r.workExperience, r.skills)
  }

  datatype ContentReport = ContentReport(
    score: int,
    wordCount: nat,
    issues: seq<ContentIssue>,
    actionVerbsUsed: set<string>)

  lemma {:induction false} ContentPenaltyAppend(a: seq<ContentIssue>, b: seq<ContentIssue>)
    ensures ContentPenaltyTotal(a + b) == ContentPenaltyTotal(a) + ContentPenaltyTotal(b)
    decreases |b|
  {
    if b != [] {
      var b' := b[..|b| - 1];
      assert (a + b)[..|a + b| - 1] == a + b';
      ContentPenaltyAppend(a, b');
    } else {
      assert a + b == a;
    }
  }

  /** The responsibility-counting loop of `_analyze_content_structure`. */
  method CountResponsibilities(work: seq<WorkExperience>) returns (total: nat, validJobs: nat)
    ensures total == ResponsibilityTotal(work) && validJobs == |work|
  {
    total, validJobs := 0, 0;
    var i := 0;
    while i < |work|
      invariant 0 <= i <= |work|
      invariant total == ResponsibilityTotal(work[..i]) && validJobs == i
    {
      total := total + |work[i].responsibilities|;
      validJobs := validJobs + 1;
      assert work[..i + 1][..i] == work[..i];
      i := i + 1;
    }
    assert work[..i] == work;
  }

  /** Appends `extra` to the issues found so far and charges its penalty. */
  method Charge(issues0: seq<ContentIssue>, score0: int, extra: seq<ContentIssue>)
    returns (issues: seq<ContentIssue>, score: int)
    ensures issues == issues0 + extra
    ensures score == score0 - ContentPenaltyTotal(extra)
  {
    issues := issues0 + extra;
    score := score0 - ContentPenaltyTotal(extra);
  }

  /** The checks of `_analyze_content_structure` on the work-experience section. */
  method CheckWork(work: seq<WorkExperience>) returns (issues: seq<ContentIssue>, verbs: set<string>)
    ensures issues == DetailIssues(work) + QuantifiedIssues(work)
    ensures verbs == VerbsUsed(work)
  {
    issues := [];
    if work != [] {
      var total, validJobs := CountResponsibilities(work);
      if validJobs > 0 && total < 2 * validJobs {
        issues := issues + [LacksDetail];
      }
    }
    var hasNumbers := FindQuantifiableAchievement(work);
    if !hasNumbers {
      issues := issues + [NoQuantifiableAchievements];
    }
    verbs := CollectActionVerbs(work);
  }

  /** The checks of `_analyze_content_structure` once the word count is known. */
  method CheckContent(wordCount: nat, work: seq<WorkExperience>, skills: seq<SkillCategory>)
    returns (issues: seq<ContentIssue>, score: int, verbs: set<string>)
    ensures issues == ContentIssuesOf(wordCount, work, skills)
    ensures score == 100 - ContentPenaltyTotal(issues)
    ensures verbs == VerbsUsed(work)
  {
    issues, score := Charge([], 100, LengthIssues(wordCount));
    assert issues == LengthIssues(wordCount);
    var workIssues;
    workIssues, verbs := CheckWork(work);
    ContentPenaltyAppend(issues, workIssues);
    issues, score := Charge(issues, score, workIssues);
    assert issues == LengthIssues(wordCount) + DetailIssues(work) + QuantifiedIssues(work);
    ContentPenaltyAppend(issues, SkillCountIssues(skills));
    issues, score := Charge(issues, score, SkillCountIssues(skills));
    var verbIssues := if |verbs| < 3 then [FewActionVerbs] else [];
    assert verbIssues == VerbIssues(work);
    ContentPenaltyAppend(issues, verbIssues);
    issues, score := Charge(issues, score, verbIssues);
  }

  /**
   * `_analyze_content_structure`: the score is 100 less the penalty of
   * every reported problem.
   */
  function ContentScore(r: ResumeContent): int { 100 - ContentPenaltyTotal(ContentIssues(r)) }

  /** What `_analyze_content_structure` reports for a résumé. */
  predicate ContentOf(report: ContentReport, r: ResumeContent)
  {
    && report.issues == ContentIssues(r)
    && report.score == ContentScore(r)
    && report.wordCount == WordCount(ResumeText(r))
    && report.actionVerbsUsed == VerbsUsed(r.workExperience)
  }

  method AnalyzeContentStructure(r: ResumeContent) returns (report: ContentReport)
    ensures ContentOf(report, r)
  {
    var text := ExtractResumeText(r);
    var wordCount := if text != [] then WordCount(text) else 0;
    assert wordCount == WordCount(text) by {
      if text == [] { assert Words(text) == []; }
    }
    var issues, score, verbs := CheckContent(wordCount, r.workExperience, r.skills);
    assert issues == ContentIssues(r);
    ContentPenaltyAtMost70(wordCount, r.workExperience, r.skills);
    assert Max0(score) == score == ContentScore(r);
    report := ContentReport(Max0(score), wordCount, issues, verbs);
  }

  lemma SinglePenalty(issues: seq<ContentIssue>, bound: nat)
    requires AtMostOne(issues, bound)
    ensures ContentPenaltyTotal(issues) <= bound
  {
    if |issues| == 1 {
      assert issues[..0] == [];
    }
  }

  /** At most 70 points can be lost, so the content score is between 30 and 100. */
  lemma ContentScoreAtLeast30(r: ResumeContent)
    ensures 30 <= 100 - ContentPenaltyTotal(ContentIssues(r)) <= 100
  {
    ContentPenaltyAtMost70(WordCount(ResumeText(r)), r.workExperience, r.skills);
  }

  lemma ContentPenaltyAtMost70(wordCount: nat, work: seq<WorkExperience>, skills: seq<SkillCategory>)
    ensures ContentPenaltyTotal(ContentIssuesOf(wordCount, work, skills)) <= 70
  {
    PartPenalties(wordCount, work, skills);
    FivePartsPenalty(LengthIssues(wordCount), DetailIssues(work), QuantifiedIssues(work),
                     SkillCountIssues(skills), VerbIssues(work));
  }

  /** Each check reports at most one issue, costing at most 20, 15, 15, 10 and 10 points. */
  lemma PartPenalties(wordCount: nat, work: seq<WorkExperience>, skills: seq<SkillCategory>)
    ensures AtMostOne(LengthIssues(wordCount), 20)
    ensures AtMostOne(DetailIssues(work), 15)
    ensures AtMostOne(QuantifiedIssues(work), 15)
    ensures AtMostOne(SkillCountIssues(skills), 10)
    ensures AtMostOne(VerbIssues(work), 10)
  {
  }

  predicate AtMostOne(issues: seq<ContentIssue>, bound: nat)
  {
    |issues| <= 1 && forall i :: 0 <= i < |issues| ==> ContentPenalty(issues[i]) <= bound
  }

  /** Five parts of at most one issue each lose at most 20 + 15 + 15 + 10 + 10 points. */
  lemma FivePartsPenalty(a: seq<ContentIssue>, b: seq<ContentIssue>, c: seq<ContentIssue>,
                         d: seq<ContentIssue>, e: seq<ContentIssue>)
    requires AtMostOne(a, 20) && AtMostOne(b, 15) && AtMostOne(c, 15) && AtMostOne(d, 10) && AtMostOne(e, 10)
    ensures ContentPenaltyTotal(a + b + c + d + e) <= 70
  {
    ContentPenaltyAppend(a, b);
    ContentPenaltyAppend(a + b, c);
    ContentPenaltyAppend(a + b + c, d);
    ContentPenaltyAppend(a + b + c + d, e);
    SinglePenalty(a, 20);
    SinglePenalty(b, 15);
    SinglePenalty(c, 15);
    SinglePenalty(d, 10);
    SinglePenalty(e, 10);
  }

  // ---------------------------------------------------------------------------
  // Readability

  /** `sum(len(word) for word in words)`. */
  function LetterTotal(words: seq<string>): nat
  {
    if words == [] then 0 else LetterTotal(words[..|words| - 1]) + |words[|words| - 1]|
  }

  /**
   * The readability formula: 100 less twice the distance of the average
   * sentence length from 15 words, and 100 less ten times the distance of
   * the average word length from 5 characters, averaged, truncated and
   * clamped to 0..100.
   */
  function ReadabilityOf(sentences: nat, words: nat, letters: nat): int
    requires sentences > 0 && words > 0
  {
    var avgSentence := words as real / sentences as real;
    var avgWord := letters as real / words as real;
    var sentenceScore := 100.0 - Abs(avgSentence - 15.0) * 2.0;
    var wordScore := 100.0 - Abs(avgWord - 5.0) * 10.0;
    Clamp100(Trunc((sentenceScore + wordScore) / 2.0))
  }

  /** `_analyze_readability`. */
  function Readability(text: string): int
  {
    if IsBlank(text) then 0
    else
      var sentences := |Sentences(text)|;
      var words := Words(text);
      if sentences == 0 || words == [] then 0
      else ReadabilityOf(sentences, |words|, LetterTotal(words))
  }

  /** Readability lies in 0..100 and is 0 for a blank text. */
  lemma ReadabilityRange(text: string)
    ensures 0 <= Readability(text) <= 100
    ensures IsBlank(text) ==> Readability(text) == 0
  {
  }

  lemma RatioIs(a: nat, b: nat, q: real)
    requires 0 < b
    ensures a as real / b as real == q <==> a as real == q * b as real
  {
  }

  /** Only exact averages of 15 words per sentence and 5 characters per word give 100. */
  lemma ReadabilityOfPerfectIff(sentences: nat, words: nat, letters: nat)
    requires sentences > 0 && words > 0
    ensures ReadabilityOf(sentences, words, letters) == 100 <==>
      words == 15 * sentences && letters == 5 * words
  {
    var a := Abs(words as real / sentences as real - 15.0);
    var b := Abs(letters as real / words as real - 5.0);
    var x := ((100.0 - a * 2.0) + (100.0 - b * 10.0)) / 2.0;
    assert x == 100.0 - a - 5.0 * b;
    RatioIs(words, sentences, 15.0);
    RatioIs(letters, words, 5.0);
    if a == 0.0 && b == 0.0 {
      assert x == 100.0;
    } else {
      assert x < 100.0;
      assert Trunc(x) < 100;
    }
  }

  /**
   * A text scores 100 exactly when it has a sentence, its sentences average
   * 15 words and its words average 5 characters.
   */
  lemma ReadabilityPerfectIff(text: string)
    ensures Readability(text) == 100 <==>
      !IsBlank(text) && |Sentences(text)| > 0
      && WordCount(text) == 15 * |Sentences(text)|
      && LetterTotal(Words(text)) == 5 * WordCount(text)
  {
    NoWordsIffBlank(text);
    if !IsBlank(text) && |Sentences(text)| > 0 {
      ReadabilityOfPerfectIff(|Sentences(text)|, WordCount(text), LetterTotal(Words(text)));
    }
  }

  // ---------------------------------------------------------------------------
  // Overall score

  /**
   * `_calculate_overall_ats_score`: 25% formatting, 35% keywords, 25% content
   * and 15% readability, truncated.
   */
  function OverallScore(formatting: int, keyword: int, content: int, readability: int): int
  {
    Trunc(formatting as real * 0.25 + keyword as real * 0.35 + content as real * 0.25
          + readability as real * 0.15)
  }

  /** The weights add up to one: equal part scores give that score. */
  lemma OverallOfEqualScores(s: nat)
    ensures OverallScore(s, s, s, s) == s
  {
    assert s as real * 0.25 + s as real * 0.35 + s as real * 0.25 + s as real * 0.15 == s as real;
  }

  /** Part scores in 0..100 give an overall score in 0..100, and raising any part never lowers it. */
  lemma OverallMonotone(f: int, k: int, c: int, r: int, f': int, k': int, c': int, r': int)
    requires 0 <= f <= f' <= 100 && 0 <= k <= k' <= 100
    requires 0 <= c <= c' <= 100 && 0 <= r <= r' <= 100
    ensures 0 <= OverallScore(f, k, c, r) <= OverallScore(f', k', c', r') <= 100
  {
    var x := f as real * 0.25 + k as real * 0.35 + c as real * 0.25 + r as real * 0.15;
    var y := f' as real * 0.25 + k' as real * 0.35 + c' as real * 0.25 + r' as real * 0.15;
    TruncMonotone(x, y);
    TruncMonotone(y, 100.0);
  }

  // ---------------------------------------------------------------------------
  // Skill gaps

  /** The lower-cased truthy skills of one category. */
  function CategorySkills(category: SkillCategory): set<string>
  {
    set s | s in category.items && s != [] :: Lower(s)
  }

  /** The lower-cased truthy skills of every category. */
  function CurrentSkills(skills: seq<SkillCategory>): set<string>
  {
    if skills == [] then {}
    else CurrentSkills(skills[..|skills| - 1]) + CategorySkills(skills[|skills| - 1])
  }

  /** The skill-collecting loop of `_analyze_skill_gaps` and `_get_industry_insights`. */
  method CollectCurrentSkills(skills: seq<SkillCategory>) returns (current: set<string>)
    ensures current == CurrentSkills(skills)
  {
    current := {};
    var i := 0;
    while i < |skills|
      invariant 0 <= i <= |skills|
      invariant current == CurrentSkills(skills[..i])
    {
      current := current + CategorySkills(skills[i]);
      assert skills[..i + 1][..i] == skills[..i];
      i := i + 1;
    }
    assert skills[..i] == skills;
  }

  function LowerSet(xs: set<string>): set<string>
  {
    set x | x in xs :: Lower(x)
  }

  /** The skills the job description names and the skills of the target industry, lower-cased. */
  function RequiredSkills(job: string, industry: string): set<string>
  {
    (if job != [] then LowerSet(Keywords.SkillsInText(job)) else {})
    + (if industry != [] then LowerSet(Keywords.IndustrySkillSet(industry)) else {})
  }

  datatype SkillGapAnalysis = SkillGapAnalysis(
    currentSkills: set<string>,
    requiredSkills: set<string>,
    missingSkills: set<string>,
    matchingSkills: set<string>,
    criticalMissing: set<string>,
    importantMissing: set<string>,
    niceToHaveMissing: set<string>,
    skillMatchPercentage: real)

  /**
   * What `_analyze_skill_gaps` reports for a set of current and of required
   * skills: the required skills split into missing and matching ones, the
   * missing ones split by the industry's priority tiers, and the share of
   * required skills present (100 when nothing is required).
   */
  predicate IsSkillGapAnalysis(g: SkillGapAnalysis, current: set<string>, required: set<string>,
                               priorities: Keywords.Priorities)
  {
    && g.currentSkills == current
    && g.requiredSkills == required
    && g.missingSkills == required - current
    && g.matchingSkills == required * current
    && g.criticalMissing + g.importantMissing + g.niceToHaveMissing == g.missingSkills
    && (forall k :: k in g.criticalMissing ==> k in priorities.critical)
    && (forall k :: k in g.importantMissing ==> k !in priorities.critical && k in priorities.important)
    && (forall k :: k in g.niceToHaveMissing ==> k !in priorities.critical && k !in priorities.important)
    && g.skillMatchPercentage
       == if required == {} then 100.0 else |required * current| as real / |required| as real * 100.0
  }

  /** The job half of the required skills. */
  method JobSkills(job: string) returns (skills: set<string>)
    ensures skills == if job != [] then LowerSet(Keywords.SkillsInText(job)) else {}
  {
    skills := {};
    if job != [] {
      var found := Keywords.ExtractSkillsFromText(job);
      skills := set k | k in found :: Lower(k);
    }
  }

  /** The industry half of the required skills. */
  method IndustryRequiredSkills(industry: string) returns (skills: set<string>)
    ensures skills == if industry != [] then LowerSet(Keywords.IndustrySkillSet(industry)) else {}
  {
    skills := {};
    if industry != [] {
      var found := Keywords.IndustrySkills(industry);
      skills := set k | k in found :: Lower(k);
    }
  }

  /** `_analyze_skill_gaps` once the current and required skills are known. */
  method CompareSkills(current: set<string>, required: set<string>, priorities: Keywords.Priorities)
    returns (g: SkillGapAnalysis)
    ensures IsSkillGapAnalysis(g, current, required, priorities)
  {
    var missing := required - current;
    var matching := required * current;
    var critical, important, niceToHave :=
      Keywords.SplitByPriority(missing, priorities.critical, priorities.important);
    var percentage := 100.0;
    if required != {} {
      percentage := |matching| as real / |required| as real * 100.0;
    }
    g := SkillGapAnalysis(current, required, missing, matching, critical, important, niceToHave,
                          percentage);
  }

  /** `_analyze_skill_gaps`. */
  method AnalyzeSkillGaps(r: ResumeContent, job: string, industry: string) returns (g: SkillGapAnalysis)
    ensures IsSkillGapAnalysis(g, CurrentSkills(r.skills), RequiredSkills(job, industry),
                               Keywords.SkillPriorities(industry))
  {
    var current := CollectCurrentSkills(r.skills);
    var fromJob := JobSkills(job);
    var fromIndustry := IndustryRequiredSkills(industry);
    g := CompareSkills(current, fromJob + fromIndustry, Keywords.SkillPriorities(industry));
  }

  lemma SubsetOfSameSize<T>(a: set<T>, b: set<T>)
    requires a <= b && |a| == |b|
    ensures a == b
  {
    if x :| x in b && x !in a {
      SubsetCardinality(a, b - {x});
    }
  }

  /**
   * The skill-match percentage lies in 0..100 and is 100 exactly when no
   * required skill is missing.
   */
  lemma SkillMatchPercentage(g: SkillGapAnalysis, current: set<string>, required: set<string>,
                             priorities: Keywords.Priorities)
    requires IsSkillGapAnalysis(g, current, required, priorities)
    ensures 0.0 <= g.skillMatchPercentage <= 100.0
    ensures g.skillMatchPercentage == 100.0 <==> g.missingSkills == {}
  {
    if required != {} {
      var matching := required * current;
      SubsetCardinality(matching, required);
      ShareBounds(|matching|, |required|);
      RatioIs(|matching|, |required|, 1.0);
      if |matching| == |required| {
        SubsetOfSameSize(matching, required);
        assert required - current == {};
      }
      if required - current == {} {
        assert matching == required;
      }
    }
  }

  // ---------------------------------------------------------------------------
  // Recommendations

  datatype PriorityLevel = High | Medium | Low
  {
    /** Higher for more urgent priorities. */
    function Rank(): nat
    {
      match this
      case High => 2
      case Medium => 1
      case Low => 0
    }
  }

  datatype Category =
    | FormattingCategory
    | KeywordsCategory
    | ContentCategory
    | ReadabilityCategory
    | JobMatchCategory
    | SkillsCategory

  /** A recommendation, by its kind; the fixed title, impact and action texts are omitted. */
  datatype Recommendation =
    | FixStructure(issue: FormattingIssue)
    | ImproveKeywords
    | AlignWithJob(matchPercentage: real)
    | ExpandContent
    | ImproveClarity
    | UseStrongerVerbs
  {
    function Category(): Category
    {
      match this
      case FixStructure(_) => FormattingCategory
      case ImproveKeywords => KeywordsCategory
      case AlignWithJob(_) => JobMatchCategory
      case ExpandContent => ContentCategory
      case ImproveClarity => ReadabilityCategory
      case UseStrongerVerbs => ContentCategory
    }

    function Priority(): PriorityLevel
    {
      match this
      case FixStructure(_) => High
      case ImproveKeywords => High
      case AlignWithJob(_) => Medium
      case ExpandContent => Medium
      case ImproveClarity => Low
      case UseStrongerVerbs => Low
    }
  }

  /**
   * The job-alignment condition as written: `if pct and pct < 60`, which
   * treats a 0% match as no match at all.
   */
  predicate JobAlignmentAsWritten(jobMatch: Option<real>)
  {
    jobMatch.Some? && jobMatch.value != 0.0 && jobMatch.value < 60.0
  }

  /** The job-alignment condition as intended: a job match below 60%. */
  predicate NeedsJobAlignment(jobMatch: Option<real>)
  {
    jobMatch.Some? && jobMatch.value < 60.0
  }

  /**
   * A résumé that shares no keyword with the job description gets no
   * job-alignment advice as written, though it is the worst possible match.
   */
  lemma ZeroMatchGetsNoAlignmentAdvice()
    ensures !JobAlignmentAsWritten(Some(0.0)) && NeedsJobAlignment(Some(0.0))
    ensures forall m :: JobAlignmentAsWritten(m) ==> NeedsJobAlignment(m)
  {
  }

  /** One structure fix per formatting issue, in order. */
  function FixStructureAll(issues: seq<FormattingIssue>): (r: seq<Recommendation>)
    ensures |r| == |issues|
    ensures forall i :: 0 <= i < |r| ==> r[i] == FixStructure(issues[i])
  {
    if issues == [] then []
    else FixStructureAll(issues[..|issues| - 1]) + [FixStructure(issues[|issues| - 1])]
  }

  /** Up to three structure fixes, when formatting scores below 80. */
  function StructureFixes(formatting: FormattingReport): seq<Recommendation>
  {
    if formatting.score < 80 then FixStructureAll(Take(formatting.issues, 3)) else []
  }

  /** The high-priority threshold advice: keywords scoring below 70. */
  function UrgentAdvice(keywordScore: int): seq<Recommendation>
  {
    if keywordScore < 70 then [ImproveKeywords] else []
  }

  /** The medium-priority threshold advice: a poor job match, a short résumé. */
  function MediumAdvice(jobMatch: Option<real>, wordCount: nat): (r: seq<Recommendation>)
    ensures ExpandContent in r <==> wordCount < MinResumeLength
    ensures jobMatch.Some? ==> (AlignWithJob(jobMatch.value) in r <==> jobMatch.value < 60.0)
    ensures forall x :: x in r ==> x == ExpandContent || (jobMatch.Some? && x == AlignWithJob(jobMatch.value))
    ensures forall x :: x in r ==> x.Priority() == Medium
  {
    (if NeedsJobAlignment(jobMatch) then [AlignWithJob(jobMatch.value)] else [])
    + (if wordCount < MinResumeLength then [ExpandContent] else [])
  }

  /** The low-priority threshold advice: poor readability, few action verbs. */
  function MinorAdvice(readability: int, verbCount: nat): seq<Recommendation>
  {
    (if readability < 70 then [ImproveClarity] else [])
    + (if verbCount < 5 then [UseStrongerVerbs] else [])
  }

  /**
   * `_generate_ats_recommendations`, from the scores it looks at: the
   * structure fixes, then one recommendation per failed threshold in the
   * order they are checked, at most ten.
   */
  function Recommendations(formatting: FormattingReport, keywordScore: int, jobMatch: Option<real>,
                           wordCount: nat, readability: int, verbCount: nat): seq<Recommendation>
  {
    Take(StructureFixes(formatting) + UrgentAdvice(keywordScore)
         + MediumAdvice(jobMatch, wordCount) + MinorAdvice(readability, verbCount), 10)
  }

  /** The structure-fix loop of `_generate_ats_recommendations`. */
  method FixFirstIssues(formatting: FormattingReport) returns (recs: seq<Recommendation>)
    ensures recs == StructureFixes(formatting)
  {
    recs := [];
    if formatting.score < 80 {
      var firstIssues := Take(formatting.issues, 3);
      var i := 0;
      while i < |firstIssues|
        invariant 0 <= i <= |firstIssues|
        invariant recs == FixStructureAll(firstIssues[..i])
      {
        recs := recs + [FixStructure(firstIssues[i])];
        assert firstIssues[..i + 1][..i] == firstIssues[..i];
        i := i + 1;
      }
      assert firstIssues[..i] == firstIssues;
    }
  }

  /** `_generate_ats_recommendations`. */
  method GenerateRecommendations(formatting: FormattingReport, keywordScore: int, jobMatch: Option<real>,
                                 wordCount: nat, readability: int, verbCount: nat)
    returns (recs: seq<Recommendation>)
    ensures recs == Recommendations(formatting, keywordScore, jobMatch, wordCount, readability, verbCount)
  {
    var recs0 := FixFirstIssues(formatting);
    recs := recs0 + if keywordScore < 70 then [ImproveKeywords] else [];
    var medium := if NeedsJobAlignment(jobMatch) then [AlignWithJob(jobMatch.value)] else [];
    medium := medium + if wordCount < MinResumeLength then [ExpandContent] else [];
    recs := recs + medium;
    var minor := if readability < 70 then [ImproveClarity] else [];
    minor := minor + if verbCount < 5 then [UseStrongerVerbs] else [];
    recs := Take(recs + minor, 10);
  }

  /** Recommendations ordered from most to least urgent. */
  predicate MostUrgentFirst(recs: seq<Recommendation>)
  {
    forall i, j :: 0 <= i < j < |recs| ==> recs[i].Priority().Rank() >= recs[j].Priority().Rank()
  }

  predicate AllAt(recs: seq<Recommendation>, level: PriorityLevel)
  {
    forall x :: x in recs ==> x.Priority() == level
  }

  lemma LevelsInOrder(high: seq<Recommendation>, medium: seq<Recommendation>, low: seq<Recommendation>)
    requires AllAt(high, High) && AllAt(medium, Medium) && AllAt(low, Low)
    ensures MostUrgentFirst(high + medium + low)
  {
    var all := high + medium + low;
    forall i, j | 0 <= i < j < |all|
      ensures all[i].Priority().Rank() >= all[j].Priority().Rank()
    {
      if i < |high| {
        assert all[i] in high;
      } else if j < |high| + |medium| {
        assert all[i] in medium && all[j] in medium;
      } else {
        assert all[j] in low;
        if i >= |high| + |medium| {
          assert all[i] in low;
        } else {
          assert all[i] in medium;
        }
      }
    }
  }

  /** The recommendations are the structure fixes and the advice of each level, nothing cut. */
  lemma RecommendationParts(formatting: FormattingReport, keywordScore: int, jobMatch: Option<real>,
                            wordCount: nat, readability: int, verbCount: nat)
    ensures var recs := Recommendations(formatting, keywordScore, jobMatch, wordCount, readability, verbCount);
      forall x :: x in recs <==>
        x in StructureFixes(formatting) || x in UrgentAdvice(keywordScore)
        || x in MediumAdvice(jobMatch, wordCount) || x in MinorAdvice(readability, verbCount)
  {
    var all := StructureFixes(formatting) + UrgentAdvice(keywordScore) + MediumAdvice(jobMatch, wordCount)
               + MinorAdvice(readability, verbCount);
    assert |all| <= 8;
    assert Take(all, 10) == all;
  }

  /**
   * Each threshold rule fires exactly when its score fails, and structure
   * fixes appear exactly when formatting scores below 80 with some issue found.
   */
  lemma RecommendationTriggers(formatting: FormattingReport, keywordScore: int, jobMatch: Option<real>,
                               wordCount: nat, readability: int, verbCount: nat)
    ensures var recs := Recommendations(formatting, keywordScore, jobMatch, wordCount, readability, verbCount);
      && (ImproveKeywords in recs <==> keywordScore < 70)
      && ((exists x :: x in recs && x.AlignWithJob?) <==> NeedsJobAlignment(jobMatch))
      && (ExpandContent in recs <==> wordCount < MinResumeLength)
      && (ImproveClarity in recs <==> readability < 70)
      && (UseStrongerVerbs in recs <==> verbCount < 5)
      && ((exists x :: x in recs && x.FixStructure?) <==> formatting.score < 80 && formatting.issues != [])
  {
    InRecommendations(formatting, keywordScore, jobMatch, wordCount, readability, verbCount, ImproveKeywords);
    InRecommendations(formatting, keywordScore, jobMatch, wordCount, readability, verbCount, ExpandContent);
    InRecommendations(formatting, keywordScore, jobMatch, wordCount, readability, verbCount, ImproveClarity);
    InRecommendations(formatting, keywordScore, jobMatch, wordCount, readability, verbCount, UseStrongerVerbs);
    AdviceMembership(keywordScore, jobMatch, wordCount, readability, verbCount);
    AlignmentTrigger(formatting, keywordScore, jobMatch, wordCount, readability, verbCount);
    FixTrigger(formatting, keywordScore, jobMatch, wordCount, readability, verbCount);
  }

  /** Nothing is cut: the recommendations are the four parts in order. */
  lemma RecommendationsUncut(formatting: FormattingReport, keywordScore: int, jobMatch: Option<real>,
                             wordCount: nat, readability: int, verbCount: nat)
    ensures Recommendations(formatting, keywordScore, jobMatch, wordCount, readability, verbCount)
         == StructureFixes(formatting) + UrgentAdvice(keywordScore) + MediumAdvice(jobMatch, wordCount)
            + MinorAdvice(readability, verbCount)
  {
    var all := StructureFixes(formatting) + UrgentAdvice(keywordScore) + MediumAdvice(jobMatch, wordCount)
               + MinorAdvice(readability, verbCount);
    assert |all| <= 8;
    assert Take(all, 10) == all;
  }

  /** Each threshold recommendation is among the threshold advice exactly when its threshold fails. */
  lemma AdviceMembership(keywordScore: int, jobMatch: Option<real>, wordCount: nat, readability: int, verbCount: nat)
    ensures var advice := UrgentAdvice(keywordScore) + MediumAdvice(jobMatch, wordCount) + MinorAdvice(readability, verbCount);
      && (ImproveKeywords in advice <==> keywordScore < 70)
      && (ExpandContent in advice <==> wordCount < MinResumeLength)
      && (ImproveClarity in advice <==> readability < 70)
      && (UseStrongerVerbs in advice <==> verbCount < 5)
  {
    var urgent, medium, minor := UrgentAdvice(keywordScore), MediumAdvice(jobMatch, wordCount), MinorAdvice(readability, verbCount);
    assert forall x :: x in urgent ==> x == ImproveKeywords;
    assert forall x :: x in medium ==> x.AlignWithJob? || x == ExpandContent;
    assert forall x :: x in minor ==> x == ImproveClarity || x == UseStrongerVerbs;
    assert ImproveKeywords in urgent <==> keywordScore < 70;
    assert ExpandContent in medium <==> wordCount < MinResumeLength;
    assert ImproveClarity in minor <==> readability < 70;
    assert UseStrongerVerbs in minor <==> verbCount < 5;
  }

  lemma InRecommendations(formatting: FormattingReport, keywordScore: int, jobMatch: Option<real>,
                          wordCount: nat, readability: int, verbCount: nat, x: Recommendation)
    requires !x.FixStructure? && !x.AlignWithJob?
    ensures x in Recommendations(formatting, keywordScore, jobMatch, wordCount, readability, verbCount) <==>
      x in UrgentAdvice(keywordScore) + MediumAdvice(jobMatch, wordCount) + MinorAdvice(readability, verbCount)
  {
    RecommendationsUncut(formatting, keywordScore, jobMatch, wordCount, readability, verbCount);
    StructureFixesKinds(formatting);
  }

  lemma AlignmentTrigger(formatting: FormattingReport, keywordScore: int, jobMatch: Option<real>,
                         wordCount: nat, readability: int, verbCount: nat)
    ensures (exists x :: x in Recommendations(formatting, keywordScore, jobMatch, wordCount, readability, verbCount)
                         && x.AlignWithJob?) <==> NeedsJobAlignment(jobMatch)
  {
    RecommendationsUncut(formatting, keywordScore, jobMatch, wordCount, readability, verbCount);
    StructureFixesKinds(formatting);
    AlignmentAdvice(jobMatch, wordCount);
  }

  lemma FixTrigger(formatting: FormattingReport, keywordScore: int, jobMatch: Option<real>,
                   wordCount: nat, readability: int, verbCount: nat)
    ensures (exists x :: x in Recommendations(formatting, keywordScore, jobMatch, wordCount, readability, verbCount)
                         && x.FixStructure?) <==> formatting.score < 80 && formatting.issues != []
  {
    RecommendationsUncut(formatting, keywordScore, jobMatch, wordCount, readability, verbCount);
    StructureFixesKinds(formatting);
  }

  /** Structure fixes are all of one kind, and there are some exactly when formatting scores below 80 with an issue. */
  lemma StructureFixesKinds(formatting: FormattingReport)
    ensures forall x :: x in StructureFixes(formatting) ==> x.FixStructure?
    ensures (exists x :: x in StructureFixes(formatting)) <==> formatting.score < 80 && formatting.issues != []
  {
    var fixes := StructureFixes(formatting);
    if formatting.score < 80 && formatting.issues != [] {
      assert fixes[0] in fixes;
    }
  }

  /** The medium advice asks for job alignment exactly when the job match calls for it. */
  lemma AlignmentAdvice(jobMatch: Option<real>, wordCount: nat)
    ensures (exists x :: x in MediumAdvice(jobMatch, wordCount) && x.AlignWithJob?) <==> NeedsJobAlignment(jobMatch)
  {
    if NeedsJobAlignment(jobMatch) {
      assert AlignWithJob(jobMatch.value) in MediumAdvice(jobMatch, wordCount);
    }
  }

  /**
   * At most eight recommendations are ever produced, so the cap of ten never
   * drops one, and they come most urgent first.
   */
  lemma RecommendationsOrdered(formatting: FormattingReport, keywordScore: int, jobMatch: Option<real>,
                               wordCount: nat, readability: int, verbCount: nat)
    ensures var recs := Recommendations(formatting, keywordScore, jobMatch, wordCount, readability, verbCount);
      |recs| <= 8 && MostUrgentFirst(recs)
  {
    var high := StructureFixes(formatting) + UrgentAdvice(keywordScore);
    var all := high + MediumAdvice(jobMatch, wordCount) + MinorAdvice(readability, verbCount);
    assert |all| <= 8;
    assert Take(all, 10) == all;
    LevelsInOrder(high, MediumAdvice(jobMatch, wordCount), MinorAdvice(readability, verbCount));
  }

  // ---------------------------------------------------------------------------
  // Industry insights

  datatype IndustryData = IndustryData(
    averageAtsScore: nat,
    keySections: seq<string>,
    trendingSkills: seq<string>,
    typicalLength: string)

  /** The benchmark table of `_get_industry_insights`, by lower-cased industry name. */
  function IndustryDataFor(industryLower: string): Option<IndustryData>
  {
    match industryLower
    case "technology" => Some(IndustryData(75, ["technical_skills", "projects", "certifications"],
      ["AI/ML", "Cloud Computing", "DevOps", "Cybersecurity"], "600-800 words"))
    case "healthcare" => Some(IndustryData(70, ["certifications", "clinical_experience", "education"],
      ["Telemedicine", "Electronic Health Records", "Patient Care"], "500-700 words"))
    case "finance" => Some(IndustryData(72, ["quantifiable_achievements", "certifications", "software_skills"],
      ["Financial Modeling", "Risk Management", "Compliance"], "550-750 words"))
    case _ => None
  }

  datatype Benchmark = Benchmark(averageAtsScore: nat, recommendedLength: string)

  datatype IndustryInsights = IndustryInsights(
    industry: string,
    benchmarks: Option<Benchmark>,
    trends: seq<string>,
    recommendations: seq<string>)

  /** The trending skills whose lower-cased form is not among the current skills, in order. */
  function MissingTrending(trending: seq<string>, current: set<string>): (r: seq<string>)
    ensures forall s :: s in r <==> s in trending && Lower(s) !in current
  {
    if trending == [] then []
    else
      var last := trending[|trending| - 1];
      var init := MissingTrending(trending[..|trending| - 1], current);
      assert forall s :: s in trending <==> s in trending[..|trending| - 1] || s == last;
      init + (if Lower(last) !in current then [last] else [])
  }

  /**
   * `_get_industry_insights`: nothing for an empty industry; the industry's
   * benchmark and trends when it is known, with one piece of advice naming
   * up to three trending skills the résumé lacks.
   */
  function Insights(industry: string, r: ResumeContent): Option<IndustryInsights>
  {
    if industry == [] then None
    else
      match IndustryDataFor(Lower(industry))
      case None => Some(IndustryInsights(industry, None, [], []))
      case Some(data) =>
        var missing := MissingTrending(data.trendingSkills, CurrentSkills(r.skills));
        var advice :=
          if missing != [] then
            ["Consider adding trending " + industry + " skills: " + Join(Take(missing, 3), ", ")]
          else [];
        Some(IndustryInsights(industry, Some(Benchmark(data.averageAtsScore, data.typicalLength)),
                              data.trendingSkills, advice))
  }

  /**
   * Insights name an industry exactly when one is given; an unknown one gets
   * no benchmark, trends or advice; a known one gets advice exactly when
   * some trending skill is missing from the résumé.
   */
  lemma InsightsShape(industry: string, r: ResumeContent)
    ensures Insights(industry, r).Some? <==> industry != []
    ensures industry != [] && IndustryDataFor(Lower(industry)).None? ==>
      Insights(industry, r) == Some(IndustryInsights(industry, None, [], []))
    ensures industry != [] && IndustryDataFor(Lower(industry)).Some? ==>
      var data := IndustryDataFor(Lower(industry)).value;
      var ins := Insights(industry, r).value;
      && ins.trends == data.trendingSkills
      && (ins.recommendations != [] <==>
            exists s :: s in data.trendingSkills && Lower(s) !in CurrentSkills(r.skills))
  {
    if industry != [] && IndustryDataFor(Lower(industry)).Some? {
      var data := IndustryDataFor(Lower(industry)).value;
      var missing := MissingTrending(data.trendingSkills, CurrentSkills(r.skills));
      assert Insights(industry, r).value.recommendations != [] <==> missing != [];
      if missing != [] {
        assert missing[0] in missing;
      }
      if exists s :: s in data.trendingSkills && Lower(s) !in CurrentSkills(r.skills) {
        var s :| s in data.trendingSkills && Lower(s) !in CurrentSkills(r.skills);
        assert s in missing;
      }
    }
  }

  // ---------------------------------------------------------------------------
  // The analysis

  datatype AnalysisError = InvalidContent | EmptyContent

  datatype AtsAnalysisResult = AtsAnalysisResult(
    overallAtsScore: int,
    formattingScore: int,
    keywordScore: int,
    contentStructureScore: int,
    readabilityScore: int,
    keywordAnalysis: KeywordAnalysis,
    skillGaps: SkillGapAnalysis,
    recommendations: seq<Recommendation>,
    industryInsights: Option<IndustryInsights>,
    analysisTimestamp: int,
    jobMatchPercentage: Option<real>)

  /** The part scores of a résumé and the overall score they give. */
  predicate PartScoresOf(formattingScore: int, ka: KeywordAnalysis, contentScore: int, readability: int,
                         overall: int, r: ResumeContent, job: string, industry: string)
  {
    && formattingScore == FormattingScore(r)
    && KeywordsOf(ka, r, job, industry)
    && contentScore == ContentScore(r)
    && readability == Readability(ResumeText(r))
    && overall == OverallScore(formattingScore, ka.score, contentScore, readability)
    && 0 <= overall <= 100
  }

  predicate ScoresOf(a: AtsAnalysisResult, r: ResumeContent, job: string, industry: string)
  {
    && a.keywordScore == a.keywordAnalysis.score
    && PartScoresOf(a.formattingScore, a.keywordAnalysis, a.contentStructureScore, a.readabilityScore,
                    a.overallAtsScore, r, job, industry)
  }

  /** The advice, skill gaps and insights of a résumé, given its scores. */
  predicate ReportsOf(a: AtsAnalysisResult, r: ResumeContent, job: string, industry: string, now: int)
  {
    && a.recommendations
       == Recommendations(FormattingReport(a.formattingScore, FormattingIssues(r), FormattingAdvice(r)),
                          a.keywordScore, a.keywordAnalysis.jobMatchPercentage,
                          WordCount(ResumeText(r)), a.readabilityScore, |VerbsUsed(r.workExperience)|)
    && IsSkillGapAnalysis(a.skillGaps, CurrentSkills(r.skills), RequiredSkills(job, industry),
                          Keywords.SkillPriorities(industry))
    && a.industryInsights == Insights(industry, r)
    && a.analysisTimestamp == now
    && a.jobMatchPercentage == (if job != [] then a.keywordAnalysis.jobMatchPercentage else None)
  }

  /**
   * `analyze_resume`. `content` is `None` for a falsy or non-dictionary
   * input; `job` and `industry` are `""` when not given; `now` is the
   * clock reading the result is stamped with.
   */
  method AnalyzeResume(content: Option<ResumeContent>, job: string, industry: string, now: int)
    returns (result: Result<AtsAnalysisResult, AnalysisError>)
    ensures content.None? ==> result == Err(InvalidContent)
    ensures content.Some? ==>
      (result == Err(EmptyContent) <==> forall p :: p in TextParts(content.value) ==> IsBlank(p))
    ensures result.Err? ==> result == Err(InvalidContent) || result == Err(EmptyContent)
    ensures result.Ok? ==>
      && content.Some?
      && ScoresOf(result.value, content.value, job, industry)
      && ReportsOf(result.value, content.value, job, industry, now)
  {
    if content.None? {
      return Err(InvalidContent);
    }
    var r := content.value;
    var text := ExtractResumeText(r);
    StripEmptyIffBlank(text);
    NoWordsIffBlank(text);
    if Strip(text) == [] {
      return Err(EmptyContent);
    }
    var a := BuildAnalysis(r, text, job, industry, now);
    result := Ok(a);
  }

  /** The analyses of `analyze_resume` for a résumé with some text, gathered into one result. */
  method BuildAnalysis(r: ResumeContent, text: string, job: string, industry: string, now: int)
    returns (a: AtsAnalysisResult)
    requires text == ResumeText(r)
    ensures ScoresOf(a, r, job, industry)
    ensures ReportsOf(a, r, job, industry, now)
  {
    var formatting, keywords, contentReport, readability, overall := ScoreResume(r, text, job, industry);
    var recs := GenerateRecommendations(formatting, keywords.score, keywords.jobMatchPercentage,
                                        contentReport.wordCount, readability,
                                        |contentReport.actionVerbsUsed|);
    var gaps := AnalyzeSkillGaps(r, job, industry);
    var insights := Insights(industry, r);
    var jobMatch := if job != [] then keywords.jobMatchPercentage else None;
    a := AtsAnalysisResult(overall, formatting.score, keywords.score, contentReport.score,
                           readability, keywords, gaps, recs, insights, now, jobMatch);
  }

  /** The four part analyses of `analyze_resume` and the overall score. */
  method ScoreResume(r: ResumeContent, text: string, job: string, industry: string)
    returns (formatting: FormattingReport, keywords: KeywordAnalysis, content: ContentReport,
             readability: int, overall: int)
    requires text == ResumeText(r)
    ensures FormattingOf(formatting, r)
    ensures KeywordsOf(keywords, r, job, industry)
    ensures ContentOf(content, r)
    ensures PartScoresOf(formatting.score, keywords, content.score, readability, overall, r, job, industry)
  {
    formatting := AnalyzeFormatting(r);
    keywords := AnalyzeKeywords(r, job, industry);
    content := AnalyzeContentStructure(r);
    ContentScoreAtLeast30(r);
    readability := Readability(text);
    ReadabilityRange(text);
    overall := OverallScore(formatting.score, keywords.score, content.score, readability);
    OverallMonotone(formatting.score, keywords.score, content.score, readability, 100, 100, 100, 100);
  }
}
