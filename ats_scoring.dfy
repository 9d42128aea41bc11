/**
 * The six-factor résumé scorer: formatting, content quality, keyword
 * relevance, section completeness, ATS compatibility and industry alignment,
 * their weighted overall score, the per-factor score bands and the three
 * most urgent improvement areas.
 */
module AtsScoring {
  import opened Wrappers
  import opened Text
  import opened Basics
  import opened ResumeData

  // ---------------------------------------------------------------------------
  // Factors and the overall score

  datatype Factor =
    | Formatting
    | ContentQuality
    | KeywordRelevance
    | SectionCompleteness
    | AtsCompatibility
    | IndustryAlignment

  /** The factors in the order the scorer computes them. */
  const Factors: seq<Factor> :=
    [Formatting, ContentQuality, KeywordRelevance, SectionCompleteness, AtsCompatibility, IndustryAlignment]

  lemma AllFactors(f: Factor)
    ensures f in Factors
  {
    match f
    case Formatting => assert Factors[0] == f;
    case ContentQuality => assert Factors[1] == f;
    case KeywordRelevance => assert Factors[2] == f;
    case SectionCompleteness => assert Factors[3] == f;
    case AtsCompatibility => assert Factors[4] == f;
    case IndustryAlignment => assert Factors[5] == f;
  }

  function Weight(f: Factor): real
  {
    match f
    case Formatting => 0.15
    case ContentQuality => 0.25
    case KeywordRelevance => 0.25
    case SectionCompleteness => 0.15
    case AtsCompatibility => 0.10
    case IndustryAlignment => 0.10
  }

  /** The detailed scores, one per factor. */
  datatype Scores = Scores(
    formatting: real,
    contentQuality: real,
    keywordRelevance: real,
    sectionCompleteness: real,
    atsCompatibility: real,
    industryAlignment: real)
  {
    function Of(f: Factor): real
    {
      match f
      case Formatting => formatting
      case ContentQuality => contentQuality
      case KeywordRelevance => keywordRelevance
      case SectionCompleteness => sectionCompleteness
      case AtsCompatibility => atsCompatibility
      case IndustryAlignment => industryAlignment
    }

    predicate InRange()
    {
      forall f :: 0.0 <= Of(f) <= 100.0
    }
  }

  /** `sum(scores[key] * weights[key] for key in keys)`. */
  function WeightedSum(s: Scores, fs: seq<Factor>): real
  {
    if fs == [] then 0.0
    else WeightedSum(s, fs[..|fs| - 1]) + s.Of(fs[|fs| - 1]) * Weight(fs[|fs| - 1])
  }

  function WeightTotal(fs: seq<Factor>): real
  {
    if fs == [] then 0.0 else WeightTotal(fs[..|fs| - 1]) + Weight(fs[|fs| - 1])
  }

  /** The overall score before rounding to one decimal. */
  function OverallScore(s: Scores): real
  {
    WeightedSum(s, Factors)
  }

  /** The weighted sum over the six factors, written out. */
  lemma {:induction false} OverallWrittenOut(s: Scores)
    ensures OverallScore(s) == 0.15 * s.formatting + 0.25 * s.contentQuality + 0.25 * s.keywordRelevance
      + 0.15 * s.sectionCompleteness + 0.10 * s.atsCompatibility + 0.10 * s.industryAlignment
  {
    var fs := Factors;
    assert fs[..1][..0] == [];
    assert fs[..2][..1] == fs[..1] && fs[..3][..2] == fs[..2] && fs[..4][..3] == fs[..3];
    assert fs[..5][..4] == fs[..4] && fs[..6][..5] == fs[..5] && fs[..6] == fs;
    assert WeightedSum(s, fs[..1]) == 0.15 * s.formatting;
    assert WeightedSum(s, fs[..2]) == WeightedSum(s, fs[..1]) + 0.25 * s.contentQuality;
    assert WeightedSum(s, fs[..3]) == WeightedSum(s, fs[..2]) + 0.25 * s.keywordRelevance;
    assert WeightedSum(s, fs[..4]) == WeightedSum(s, fs[..3]) + 0.15 * s.sectionCompleteness;
    assert WeightedSum(s, fs[..5]) == WeightedSum(s, fs[..4]) + 0.10 * s.atsCompatibility;
    assert WeightedSum(s, fs[..6]) == WeightedSum(s, fs[..5]) + 0.10 * s.industryAlignment;
  }

  /** The six weights add up to one. */
  lemma {:induction false} WeightsSumToOne()
    ensures WeightTotal(Factors) == 1.0
  {
    var fs := Factors;
    assert fs[..1][..0] == [];
    assert fs[..2][..1] == fs[..1] && fs[..3][..2] == fs[..2] && fs[..4][..3] == fs[..3];
    assert fs[..5][..4] == fs[..4] && fs[..6][..5] == fs[..5] && fs[..6] == fs;
    assert WeightTotal(fs[..1]) == 0.15;
    assert WeightTotal(fs[..2]) == WeightTotal(fs[..1]) + 0.25;
    assert WeightTotal(fs[..3]) == WeightTotal(fs[..2]) + 0.25;
    assert WeightTotal(fs[..4]) == WeightTotal(fs[..3]) + 0.15;
    assert WeightTotal(fs[..5]) == WeightTotal(fs[..4]) + 0.10;
    assert WeightTotal(fs[..6]) == WeightTotal(fs[..5]) + 0.10;
  }

  /**
   * The overall score is a weighted average: it lies between the lowest and
   * the highest factor score, is the common score when all six agree, and
   * does not decrease when any factor score rises.
   */
  lemma OverallIsWeightedAverage(s: Scores, t: Scores, lo: real, hi: real)
    requires forall f :: lo <= s.Of(f) <= hi
    ensures lo <= OverallScore(s) <= hi
    ensures (forall f :: s.Of(f) == lo) ==> OverallScore(s) == lo
    ensures (forall f :: s.Of(f) <= t.Of(f)) ==> OverallScore(s) <= OverallScore(t)
  {
    OverallWrittenOut(s);
    OverallWrittenOut(t);
    assert lo <= s.Of(Formatting) <= hi && lo <= s.Of(ContentQuality) <= hi;
    assert lo <= s.Of(KeywordRelevance) <= hi && lo <= s.Of(SectionCompleteness) <= hi;
    assert lo <= s.Of(AtsCompatibility) <= hi && lo <= s.Of(IndustryAlignment) <= hi;
    if forall f :: s.Of(f) <= t.Of(f) {
      assert s.Of(Formatting) <= t.Of(Formatting) && s.Of(ContentQuality) <= t.Of(ContentQuality);
      assert s.Of(KeywordRelevance) <= t.Of(KeywordRelevance);
      assert s.Of(SectionCompleteness) <= t.Of(SectionCompleteness);
      assert s.Of(AtsCompatibility) <= t.Of(AtsCompatibility);
      assert s.Of(IndustryAlignment) <= t.Of(IndustryAlignment);
    }
  }

  // ---------------------------------------------------------------------------
  // The text of a résumé and its simple keywords

  function JobTextParts(job: WorkExperience): seq<string>
  {
    [job.jobTitle, job.company, Join(job.responsibilities, " ")]
  }

  function EducationTextParts(edu: Education): seq<string>
  {
    [edu.degree, edu.institution, edu.fieldOfStudy]
  }

  function ProjectTextParts(project: Project): seq<string>
  {
    [project.name, project.description, Join(project.technologies, " ")]
  }

  function CertificationTextParts(cert: Certification): seq<string>
  {
    [cert.name, cert.issuer]
  }

  /**
   * The parts the scorer collects, before empty ones are dropped: first and
   * last name, the summary, then per job its title, company and joined
   * responsibilities, per education entry its degree, institution and field,
   * every skill, per project its name, description and joined technologies,
   * and per certification its name and issuer.
   */
  function AllTextParts(r: ResumeContent): seq<string>
  {
    [Personal(r).firstName, Personal(r).lastName]
    + IfPresent(r.professionalSummary)
    + FlatMap(r.workExperience, JobTextParts)
    + FlatMap(r.education, EducationTextParts)
    + SkillItems(r.skills)
    + FlatMap(r.projects, ProjectTextParts)
    + FlatMap(r.certifications, CertificationTextParts)
  }

  /** The résumé text: the non-empty parts joined by single spaces. */
  function AllText(r: ResumeContent): string
  {
    Join(NonEmptyStrings(AllTextParts(r)), " ")
  }

  /** Collects the parts section by section, as the scorer's loops do. */
  method ExtractAllText(r: ResumeContent) returns (text: string)
    ensures text == AllText(r)
  {
    var parts := [Personal(r).firstName, Personal(r).lastName];
    if r.professionalSummary != [] {
      parts := parts + [r.professionalSummary];
    }
    assert parts == [Personal(r).firstName, Personal(r).lastName] + IfPresent(r.professionalSummary);
    parts := AppendParts(parts, r.workExperience, JobTextParts);
    parts := AppendParts(parts, r.education, EducationTextParts);
    parts := parts + SkillItems(r.skills);
    parts := AppendParts(parts, r.projects, ProjectTextParts);
    parts := AppendParts(parts, r.certifications, CertificationTextParts);
    text := Join(NonEmptyStrings(parts), " ");
  }

  /** A résumé with nothing in it has no text. */
  lemma EmptyResumeHasNoText()
    ensures AllText(ResumeContent(None, "", [], [], [], [], [], [])) == []
  {
    var r := ResumeContent(None, "", [], [], [], [], [], []);
    assert AllTextParts(r) == ["", ""];
    assert NonEmptyStrings(["", ""]) == [];
  }

  const StopWords: set<string> :=
    {"the", "a", "an", "and", "or", "but", "in", "on", "at", "to", "for", "of", "with", "by"}

  /** `re.sub(r'[^\w\s]', ' ', s)`. */
  function ReplaceNonWord(s: string): (r: string)
    ensures |r| == |s|
    ensures forall i :: 0 <= i < |s| ==> r[i] == (if IsWordChar(s[i]) || IsSpace(s[i]) then s[i] else ' ')
  {
    if s == [] then []
    else ReplaceNonWord(s[..|s| - 1]) + [if IsWordChar(s[|s| - 1]) || IsSpace(s[|s| - 1]) then s[|s| - 1] else ' ']
  }

  /** `[w for w in words if len(w) > 2 and w not in stop_words]`. */
  function KeepKeywords(words: seq<string>): (ks: seq<string>)
    ensures forall k :: k in ks ==> k in words && |k| > 2 && k !in StopWords
  {
    if words == [] then []
    else
      var w := words[|words| - 1];
      KeepKeywords(words[..|words| - 1]) + (if |w| > 2 && w !in StopWords then [w] else [])
  }

  /** `_extract_keywords_simple`. */
  function SimpleKeywords(text: string): seq<string>
  {
    if text == [] then [] else KeepKeywords(Words(ReplaceNonWord(Lower(text))))
  }

  predicate AllWordChars(w: string)
  {
    forall i :: 0 <= i < |w| ==> IsWordChar(w[i])
  }

  /**
   * Every simple keyword is longer than two characters, is not a stop word
   * and consists of word characters only.
   */
  lemma SimpleKeywordShape(text: string, k: string)
    requires k in SimpleKeywords(text)
    ensures |k| > 2 && k !in StopWords && AllWordChars(k)
  {
    var s := ReplaceNonWord(Lower(text));
    var ws := Words(s);
    assert k in ws;
    var n :| 0 <= n < |ws| && ws[n] == k;
    assert forall c :: 0 <= c < |s| ==> IsWordChar(s[c]) || IsSpace(s[c]);
    WordOfWordCharsOnly(s, n);
  }

  /** In a string of word characters and spaces, every word is made of word characters. */
  lemma WordOfWordCharsOnly(s: string, n: int)
    requires forall c :: 0 <= c < |s| ==> IsWordChar(s[c]) || IsSpace(s[c])
    requires 0 <= n < |Words(s)|
    ensures AllWordChars(Words(s)[n])
  {
    var w := Words(s)[n];
    assert w in Words(s);
    WordsOccur(s, n);
    var i :| OccursAt(s, w, i);
    forall c | 0 <= c < |w|
      ensures IsWordChar(w[c])
    {
      assert w[c] == s[i + c];
      assert !IsSpace(w[c]);
    }
  }

  // ---------------------------------------------------------------------------
  // Formatting

  predicate IsStructuredJob(job: WorkExperience)
  {
    job.jobTitle != [] && job.company != [] && job.startDate != [] && job.responsibilities != []
  }

  predicate IsStructuredEducation(edu: Education)
  {
    edu.degree != [] && edu.institution != [] && edu.graduationYear != []
  }

  function Indicator(b: bool): nat { if b then 1 else 0 }

  /** How many of personal info, work experience, education and skills are present. */
  function StructureSectionsPresent(r: ResumeContent): nat
  {
    Indicator(r.personalInfo.Some?) + Indicator(r.workExperience != [])
    + Indicator(r.education != []) + Indicator(r.skills != [])
  }

  /** How many of first name, last name, email and phone are set. */
  function ContactFieldsPresent(p: PersonalInfo): nat
  {
    Indicator(p.firstName != []) + Indicator(p.lastName != []) + Indicator(p.email != [])
    + Indicator(p.phone != [])
  }

  /** The share of `part` out of `whole` entries, scaled to `points`; nothing for no entries. */
  function Share(part: nat, whole: nat, points: real): real
  {
    if whole == 0 then 0.0 else (part as real) / (whole as real) * points
  }

  lemma ShareBounds(part: nat, whole: nat, points: real)
    requires part <= whole && 0.0 <= points
    ensures 0.0 <= Share(part, whole, points) <= points
    ensures whole > 0 && points > 0.0 ==> (Share(part, whole, points) == points <==> part == whole)
  {
    if whole > 0 {
      var p, w := part as real, whole as real;
      var ratio := p / w;
      assert ratio * w == p;
      assert 0.0 <= ratio;
      assert ratio <= 1.0;
      assert ratio == 1.0 <==> part == whole;
      assert ratio * points <= points by {
        assert (1.0 - ratio) * points >= 0.0;
      }
      if points > 0.0 && ratio < 1.0 {
        assert (1.0 - ratio) * points > 0.0;
      }
    }
  }

  function SectionsPart(r: ResumeContent): real
  {
    Share(StructureSectionsPresent(r), 4, 30.0)
  }

  function ContactPart(r: ResumeContent): real
  {
    Share(ContactFieldsPresent(Personal(r)), 4, 20.0)
  }

  function JobsPart(r: ResumeContent): real
  {
    Share(CountWhere(r.workExperience, IsStructuredJob), |r.workExperience|, 25.0)
  }

  function EducationPart(r: ResumeContent): real
  {
    Share(CountWhere(r.education, IsStructuredEducation), |r.education|, 15.0)
  }

  function SkillsPart(r: ResumeContent): real
  {
    if r.skills != [] then 10.0 else 0.0
  }

  /** `_score_formatting`: the five parts, capped at 100. */
  function FormattingScore(r: ResumeContent): real
  {
    MinReal(100.0, SectionsPart(r) + ContactPart(r) + JobsPart(r) + EducationPart(r) + SkillsPart(r))
  }

  /** `sum(1 for x in xs if p(x)) == len(xs)` exactly when every entry satisfies `p`. */
  lemma {:induction false} CountWhereAll<T>(xs: seq<T>, p: T -> bool)
    ensures CountWhere(xs, p) == |xs| <==> forall i :: 0 <= i < |xs| ==> p(xs[i])
  {
    if xs != [] {
      var init := xs[..|xs| - 1];
      CountWhereAll(init, p);
      assert forall i :: 0 <= i < |init| ==> init[i] == xs[i];
    }
  }

  /**
   * The formatting score is the sum of five parts worth at most 30, 20, 25,
   * 15 and 10, so the cap at 100 never binds; the work and education parts
   * are full exactly when every entry is structured.
   */
  lemma FormattingParts(r: ResumeContent)
    ensures 0.0 <= SectionsPart(r) <= 30.0 && 0.0 <= ContactPart(r) <= 20.0
    ensures 0.0 <= JobsPart(r) <= 25.0 && 0.0 <= EducationPart(r) <= 15.0
    ensures 0.0 <= SkillsPart(r) <= 10.0
    ensures FormattingScore(r) == SectionsPart(r) + ContactPart(r) + JobsPart(r) + EducationPart(r) + SkillsPart(r)
    ensures 0.0 <= FormattingScore(r) <= 100.0
    ensures r.workExperience != [] ==>
      (JobsPart(r) == 25.0 <==> forall i :: 0 <= i < |r.workExperience| ==> IsStructuredJob(r.workExperience[i]))
    ensures r.education != [] ==>
      (EducationPart(r) == 15.0 <==> forall i :: 0 <= i < |r.education| ==> IsStructuredEducation(r.education[i]))
  {
    ShareBounds(StructureSectionsPresent(r), 4, 30.0);
    ShareBounds(ContactFieldsPresent(Personal(r)), 4, 20.0);
    ShareBounds(CountWhere(r.workExperience, IsStructuredJob), |r.workExperience|, 25.0);
    ShareBounds(CountWhere(r.education, IsStructuredEducation), |r.education|, 15.0);
    CountWhereAll(r.workExperience, IsStructuredJob);
    CountWhereAll(r.education, IsStructuredEducation);
  }

  /** `_score_formatting`, counting the structured entries in loops. */
  method ScoreFormatting(r: ResumeContent) returns (score: real)
    ensures score == FormattingScore(r)
  {
    score := 0.0;
    var sections := (StructureSectionsPresent(r) as real) / 4.0 * 30.0;
    assert sections == SectionsPart(r);
    var contact := (ContactFieldsPresent(Personal(r)) as real) / 4.0 * 20.0;
    assert contact == ContactPart(r);
    score := score + sections + contact;
    var jobs := 0.0;
    if r.workExperience != [] {
      var structuredJobs := CountMatching(r.workExperience, IsStructuredJob);
      jobs := (structuredJobs as real) / (|r.workExperience| as real) * 25.0;
    }
    assert jobs == JobsPart(r);
    score := score + jobs;
    var education := 0.0;
    if r.education != [] {
      var structuredEdu := CountMatching(r.education, IsStructuredEducation);
      education := (structuredEdu as real) / (|r.education| as real) * 15.0;
    }
    assert education == EducationPart(r);
    score := score + education;
    if r.skills != [] {
      score := score + 10.0;
    }
    score := MinReal(100.0, score);
  }

  // ---------------------------------------------------------------------------
  // Content quality

  /**
   * `_check_quantified_achievements` on one bullet: the lower-cased text
   * matches `\d+[%$]?|\$\d+|increased by|reduced by|improved by`, that is, it
   * has a digit or one of the three phrases.
   */
  predicate IsMeasured(resp: string)
  {
    var l := Lower(resp);
    HasDigit(l) || Contains(l, "increased by") || Contains(l, "reduced by") || Contains(l, "improved by")
  }

  predicate AnyMeasured(resps: seq<string>)
  {
    exists k | 0 <= k < |resps| :: IsMeasured(resps[k])
  }

  predicate HasQuantifiedAchievements(work: seq<WorkExperience>)
  {
    exists j | 0 <= j < |work| :: AnyMeasured(work[j].responsibilities)
  }

  /** `_check_quantified_achievements`, returning at the first measured bullet. */
  method CheckQuantifiedAchievements(work: seq<WorkExperience>) returns (found: bool)
    ensures found == HasQuantifiedAchievements(work)
  {
    var j := 0;
    while j < |work|
      invariant 0 <= j <= |work|
      invariant forall j' :: 0 <= j' < j ==> !AnyMeasured(work[j'].responsibilities)
    {
      var resps := work[j].responsibilities;
      var k := 0;
      while k < |resps|
        invariant 0 <= k <= |resps|
        invariant forall k' :: 0 <= k' < k ==> !IsMeasured(resps[k'])
      {
        if IsMeasured(resps[k]) {
          return true;
        }
        k := k + 1;
      }
      j := j + 1;
    }
    return false;
  }

  /** `_score_action_verbs`: ten points per distinct action verb opening a bullet, at most 100. */
  function ActionVerbScore(work: seq<WorkExperience>): int
  {
    Min(100, 10 * |VerbsUsed(work)|)
  }

  /** `_score_action_verbs`, collecting the verbs in a loop. */
  method ScoreActionVerbs(work: seq<WorkExperience>) returns (score: int)
    ensures score == ActionVerbScore(work)
    ensures 0 <= score <= 100
    ensures score == 100 <==> |VerbsUsed(work)| >= 10
  {
    var found := CollectActionVerbs(work);
    score := Min(100, |found| * 10);
  }

  function SummaryPoints(summary: string): real
  {
    if summary == [] then 0.0
    else if WordCount(summary) >= 20 then 15.0
    else if WordCount(summary) >= 10 then 10.0
    else 5.0
  }

  /** Points for the average number of responsibilities per job. */
  function DepthPoints(work: seq<WorkExperience>): real
  {
    if work == [] then 0.0
    else
      var average := (ResponsibilityTotal(work) as real) / (|work| as real);
      if average >= 4.0 then 25.0
      else if average >= 3.0 then 20.0
      else if average >= 2.0 then 15.0
      else 10.0
  }

  function SkillDiversityPoints(total: nat): real
  {
    if total >= 15 then 15.0
    else if total >= 10 then 12.0
    else if total >= 5 then 8.0
    else 3.0
  }

  function BonusSections(r: ResumeContent): nat
  {
    Indicator(r.certifications != []) + Indicator(r.projects != []) + Indicator(r.languages != [])
  }

  /** The content-quality points before the cap at 100. */
  function ContentQualityPoints(r: ResumeContent): real
  {
    SummaryPoints(r.professionalSummary)
    + DepthPoints(r.workExperience)
    + (if HasQuantifiedAchievements(r.workExperience) then 20.0 else 0.0)
    + (ActionVerbScore(r.workExperience) as real) * 0.15
    + SkillDiversityPoints(SkillTotal(r.skills))
    + (BonusSections(r) as real) * 5.0
  }

  /** `_score_content_quality`. */
  function ContentQualityScore(r: ResumeContent): real
  {
    MinReal(100.0, ContentQualityPoints(r))
  }

  /**
   * The content-quality score lies in [3, 100]: the skills part always gives
   * at least 3 points. The parts can reach 105, so the cap can bind.
   */
  lemma ContentQualityRange(r: ResumeContent)
    ensures 3.0 <= ContentQualityScore(r) <= 100.0
    ensures ContentQualityPoints(r) <= 105.0
  {
  }

  lemma QuotientAtLeast(t: real, n: real, k: real)
    requires n > 0.0 && t >= k * n
    ensures t / n >= k
  {
    var q := t / n;
    assert q * n == t;
    if q < k {
      assert (k - q) * n > 0.0;
    }
  }

  lemma DepthPointsFull(work: seq<WorkExperience>)
    requires work != [] && ResponsibilityTotal(work) >= 4 * |work|
    ensures DepthPoints(work) == 25.0
  {
    QuotientAtLeast(ResponsibilityTotal(work) as real, |work| as real, 4.0);
  }

  /** A résumé that scores the top band in every part reaches the cap. */
  lemma ContentQualityCapBinds(r: ResumeContent)
    requires WordCount(r.professionalSummary) >= 20
    requires r.workExperience != [] && ResponsibilityTotal(r.workExperience) >= 4 * |r.workExperience|
    requires HasQuantifiedAchievements(r.workExperience)
    requires |VerbsUsed(r.workExperience)| >= 10
    requires SkillTotal(r.skills) >= 15
    requires r.certifications != [] && r.projects != [] && r.languages != []
    ensures ContentQualityPoints(r) == 105.0 && ContentQualityScore(r) == 100.0
  {
    DepthPointsFull(r.workExperience);
    assert r.professionalSummary != [];
    assert SummaryPoints(r.professionalSummary) == 15.0;
    assert ActionVerbScore(r.workExperience) == 100;
    assert BonusSections(r) == 3;
  }

  /** `_score_content_quality`, computed step by step. */
  method ScoreContentQuality(r: ResumeContent) returns (score: real)
    ensures score == ContentQualityScore(r)
  {
    score := 0.0;
    var summary := r.professionalSummary;
    if summary != [] {
      if WordCount(summary) >= 20 {
        score := score + 15.0;
      } else if WordCount(summary) >= 10 {
        score := score + 10.0;
      } else {
        score := score + 5.0;
      }
    }
    var work := r.workExperience;
    if work != [] {
      var average := (ResponsibilityTotal(work) as real) / (|work| as real);
      if average >= 4.0 {
        score := score + 25.0;
      } else if average >= 3.0 {
        score := score + 20.0;
      } else if average >= 2.0 {
        score := score + 15.0;
      } else {
        score := score + 10.0;
      }
    }
    var hasNumbers := CheckQuantifiedAchievements(work);
    if hasNumbers {
      score := score + 20.0;
    }
    var verbScore := ScoreActionVerbs(work);
    score := score + (verbScore as real) * 0.15;
    score := score + SkillDiversityPoints(SkillTotal(r.skills));
    score := score + (BonusSections(r) as real) * 5.0;
    score := MinReal(100.0, score);
  }

  // ---------------------------------------------------------------------------
  // Keyword relevance

  /** `_get_industry_keywords_simple`: a case-insensitive lookup, `[]` for other industries. */
  function SimpleIndustryKeywords(industry: string): seq<string>
  {
    var key := Lower(industry);
    if key == "technology" then ["software", "development", "programming", "coding", "agile", "api", "database"]
    else if key == "healthcare" then ["patient", "clinical", "medical", "healthcare", "treatment", "diagnosis"]
    else if key == "finance" then ["financial", "investment", "banking", "accounting", "analysis", "budget"]
    else if key == "marketing" then ["marketing", "campaign", "brand", "social", "digital", "analytics"]
    else if key == "sales" then ["sales", "revenue", "client", "customer", "negotiation", "target"]
    else []
  }

  /** `len(set(found) & set(reference)) / len(reference) * points`, nothing for an empty reference. */
  function OverlapPoints(found: seq<string>, reference: seq<string>, points: real): real
  {
    Share(|SetOf(found) * SetOf(reference)|, |reference|, points)
  }

  lemma {:induction false} SetOfSize<T>(xs: seq<T>)
    ensures |SetOf(xs)| <= |xs|
  {
    if xs != [] {
      var init := xs[..|xs| - 1];
      SetOfSize(init);
      assert SetOf(xs) == SetOf(init) + {xs[|xs| - 1]};
    }
  }

  lemma OverlapBounds(found: seq<string>, reference: seq<string>, points: real)
    requires 0.0 <= points
    ensures 0.0 <= OverlapPoints(found, reference, points) <= points
  {
    SubsetCardinality(SetOf(found) * SetOf(reference), SetOf(reference));
    SetOfSize(reference);
    ShareBounds(|SetOf(found) * SetOf(reference)|, |reference|, points);
  }

  /** Up to 60 points for the share of the job description's keywords the résumé has. */
  function JobPoints(resumeKeywords: seq<string>, job: string): (p: real)
    ensures 0.0 <= p <= 60.0
  {
    if job == [] then 0.0
    else
      OverlapBounds(resumeKeywords, SimpleKeywords(job), 60.0);
      OverlapPoints(resumeKeywords, SimpleKeywords(job), 60.0)
  }

  /** Up to 40 points for the share of the industry's keywords the résumé has. */
  function IndustryPoints(resumeKeywords: seq<string>, industry: string): (p: real)
    ensures 0.0 <= p <= 40.0
  {
    if industry == [] then 0.0
    else
      OverlapBounds(resumeKeywords, SimpleIndustryKeywords(industry), 40.0);
      OverlapPoints(resumeKeywords, SimpleIndustryKeywords(industry), 40.0)
  }

  /** Points for the keyword density (in percent): 20 in [3, 8], 10 in [1, 12], none otherwise. */
  function DensityPoints(density: real): real
  {
    if 3.0 <= density <= 8.0 then 20.0
    else if 1.0 <= density <= 12.0 then 10.0
    else 0.0
  }

  /**
   * The keyword density of the résumé text in percent, which divides by its
   * number of words; 0 for a text without words.
   */
  function KeywordDensityPercent(text: string): real
  {
    if WordCount(text) == 0 then 0.0
    else (|SimpleKeywords(text)| as real) / (WordCount(text) as real) * 100.0
  }

  datatype ScoringError = DivisionByZero

  /**
   * `_score_keyword_relevance` as written: 50 without a job description and
   * an industry; otherwise the job overlap (up to 60), the industry overlap
   * (up to 40) and the density points, capped at 100. The density divides by
   * the number of words of the résumé text, which fails on a résumé without
   * words.
   */
  function KeywordRelevanceAsWritten(r: ResumeContent, job: string, industry: string): (score: Result<real, ScoringError>)
    ensures score.Err? <==> (job != [] || industry != []) && WordCount(AllText(r)) == 0
  {
    if job == [] && industry == [] then Ok(50.0)
    else if WordCount(AllText(r)) == 0 then Err(DivisionByZero)
    else Ok(RelevancePoints(AllText(r), job, industry))
  }

  /** The job overlap, the industry overlap and the density points of `text`, capped at 100. */
  function RelevancePoints(text: string, job: string, industry: string): (score: real)
    ensures 0.0 <= score <= 100.0
  {
    var keywords := SimpleKeywords(text);
    MinReal(100.0, JobPoints(keywords, job) + IndustryPoints(keywords, industry)
      + DensityPoints(KeywordDensityPercent(text)))
  }

  /**
   * A résumé with no text, scored against a job description, makes the
   * keyword-relevance score divide by zero.
   */
  lemma EmptyResumeDividesByZero()
    ensures KeywordRelevanceAsWritten(ResumeContent(None, "", [], [], [], [], [], []), "python developer", "")
      == Err(DivisionByZero)
  {
    EmptyResumeHasNoText();
  }

  /**
   * `_score_keyword_relevance` with the density of a résumé without words
   * taken as 0, so that it gets no density points.
   */
  function KeywordRelevanceScore(r: ResumeContent, job: string, industry: string): (score: real)
    ensures job == [] && industry == [] ==> score == 50.0
    ensures 0.0 <= score <= 100.0
  {
    if job == [] && industry == [] then 50.0
    else RelevancePoints(AllText(r), job, industry)
  }

  /**
   * The corrected score agrees with the score as written wherever the latter
   * is defined, and differs from it only by being defined on a résumé
   * without words.
   */
  lemma KeywordRelevanceCorrected(r: ResumeContent, job: string, industry: string)
    ensures KeywordRelevanceAsWritten(r, job, industry).Ok? ==>
      KeywordRelevanceAsWritten(r, job, industry).value == KeywordRelevanceScore(r, job, industry)
    ensures KeywordRelevanceAsWritten(r, job, industry).Err? ==>
      KeywordRelevanceScore(r, job, industry) == MinReal(100.0,
        JobPoints(SimpleKeywords(AllText(r)), job) + IndustryPoints(SimpleKeywords(AllText(r)), industry))
  {
  }

  /** `len(set(found) & set(reference)) / len(reference) * points`, skipped for an empty reference. */
  method ScoreOverlap(found: seq<string>, reference: seq<string>, points: real) returns (p: real)
    ensures p == OverlapPoints(found, reference, points)
  {
    p := 0.0;
    if reference != [] {
      var matched := SetOf(found) * SetOf(reference);
      p := (|matched| as real) / (|reference| as real) * points;
    }
  }

  /** `_score_keyword_relevance`, with the density of a wordless résumé taken as 0. */
  method ScoreKeywordRelevance(r: ResumeContent, job: string, industry: string) returns (score: real)
    ensures score == KeywordRelevanceScore(r, job, industry)
  {
    if job == [] && industry == [] {
      return 50.0;
    }
    var text := ExtractAllText(r);
    var resumeKeywords := SimpleKeywords(text);
    var jobPart := 0.0;
    if job != [] {
      jobPart := ScoreOverlap(resumeKeywords, SimpleKeywords(job), 60.0);
    }
    var industryPart := 0.0;
    if industry != [] {
      var industryKeywords := SimpleIndustryKeywords(industry);
      industryPart := ScoreOverlap(resumeKeywords, industryKeywords, 40.0);
    }
    var density := KeywordDensityPercent(text);
    score := MinReal(100.0, jobPart + industryPart + DensityPoints(density));
  }

  // ---------------------------------------------------------------------------
  // Section completeness

  datatype EssentialSection = PersonalSection | WorkSection | EducationSection | SkillsSection

  /** The essential sections in the scorer's order. */
  const EssentialSections: seq<EssentialSection> := [PersonalSection, WorkSection, EducationSection, SkillsSection]

  /** Some skill category holds at least one skill: `any(skills.values())`. */
  predicate AnySkillListed(skills: seq<SkillCategory>)
  {
    exists i | 0 <= i < |skills| :: skills[i].items != []
  }

  /**
   * Points of one essential section: the personal section by its share of
   * the four contact fields (out of 20), work experience 25, education 15, and
   * skills 10 when some category lists a skill and 5 otherwise; an absent
   * section gives nothing.
   */
  function EssentialPoints(r: ResumeContent, section: EssentialSection): real
  {
    match section
    case PersonalSection =>
      if r.personalInfo.Some? then (ContactFieldsPresent(r.personalInfo.value) as real) / 4.0 * 20.0 else 0.0
    case WorkSection => if r.workExperience != [] then 25.0 else 0.0
    case EducationSection => if r.education != [] then 15.0 else 0.0
    case SkillsSection =>
      if r.skills == [] then 0.0 else if AnySkillListed(r.skills) then 10.0 else 5.0
  }

  function EssentialTotal(r: ResumeContent, sections: seq<EssentialSection>): real
  {
    if sections == [] then 0.0
    else EssentialTotal(r, sections[..|sections| - 1]) + EssentialPoints(r, sections[|sections| - 1])
  }

  /** How many of summary, certifications, projects and languages are present. */
  function OptionalSectionsPresent(r: ResumeContent): nat
  {
    Indicator(r.professionalSummary != []) + BonusSections(r)
  }

  /** `_score_section_completeness`. */
  function SectionCompletenessScore(r: ResumeContent): real
  {
    MinReal(100.0, EssentialTotal(r, EssentialSections) + (OptionalSectionsPresent(r) as real) / 4.0 * 30.0)
  }

  /** `_score_section_completeness`, summing the essential sections in a loop. */
  method ScoreSectionCompleteness(r: ResumeContent) returns (score: real)
    ensures score == SectionCompletenessScore(r)
  {
    score := 0.0;
    var i := 0;
    while i < |EssentialSections|
      invariant 0 <= i <= |EssentialSections|
      invariant score == EssentialTotal(r, EssentialSections[..i])
    {
      score := score + EssentialPoints(r, EssentialSections[i]);
      assert EssentialSections[..i + 1][..i] == EssentialSections[..i];
      i := i + 1;
    }
    assert EssentialSections[..i] == EssentialSections;
    score := score + (OptionalSectionsPresent(r) as real) / 4.0 * 30.0;
    score := MinReal(100.0, score);
  }

  /** A complete résumé: every contact field, every section, and a listed skill. */
  predicate IsComplete(r: ResumeContent)
  {
    r.personalInfo.Some? && ContactFieldsPresent(r.personalInfo.value) == 4
    && r.workExperience != [] && r.education != [] && AnySkillListed(r.skills)
    && r.professionalSummary != [] && BonusSections(r) == 3
  }

  /**
   * The essential sections are worth at most 70 and the optional ones at most
   * 30, so the cap never binds, and the score is 100 exactly for a complete
   * résumé.
   */
  lemma {:induction false} SectionCompletenessRange(r: ResumeContent)
    ensures 0.0 <= SectionCompletenessScore(r) <= 100.0
    ensures SectionCompletenessScore(r) == EssentialTotal(r, EssentialSections) + (OptionalSectionsPresent(r) as real) / 4.0 * 30.0
    ensures SectionCompletenessScore(r) == 100.0 <==> IsComplete(r)
  {
    var ss := EssentialSections;
    assert ss[..1][..0] == [];
    assert ss[..2][..1] == ss[..1] && ss[..3][..2] == ss[..2] && ss[..4][..3] == ss[..3] && ss[..4] == ss;
    assert EssentialTotal(r, ss[..1]) == EssentialPoints(r, PersonalSection);
    assert EssentialTotal(r, ss[..2]) == EssentialTotal(r, ss[..1]) + EssentialPoints(r, WorkSection);
    assert EssentialTotal(r, ss[..3]) == EssentialTotal(r, ss[..2]) + EssentialPoints(r, EducationSection);
    assert EssentialTotal(r, ss[..4]) == EssentialTotal(r, ss[..3]) + EssentialPoints(r, SkillsSection);
    if AnySkillListed(r.skills) {
      assert r.skills != [];
    }
  }

  // ---------------------------------------------------------------------------
  // ATS compatibility

  /** A character `[^\w\s.,;:()\-/]` matches. */
  predicate IsSpecialChar(c: char)
  {
    !IsWordChar(c) && !IsSpace(c) && c !in ".,;:()-/"
  }

  predicate AllYearMonth(dates: seq<string>)
  {
    forall i :: 0 <= i < |dates| ==> StartsWithYearMonth(dates[i])
  }

  /**
   * `re.match(r'^[^@]+@[^@]+\.[^@]+', email)`: some non-empty run without `@`,
   * an `@`, a non-empty run without `@`, a dot and one more character other
   * than `@` open the string.
   */
  predicate LooseEmail(s: string)
  {
    exists at, dot | 0 <= at < dot < |s| :: EmailSplit(s, at, dot)
  }

  /** `s[at]` is the only `@` before the dot at `dot`, with text around both. */
  predicate EmailSplit(s: string, at: int, dot: int)
  {
    1 <= at && at + 2 <= dot && dot + 1 < |s| && s[at] == '@' && s[dot] == '.' && s[dot + 1] != '@'
    && forall k :: 0 <= k < dot && k != at ==> s[k] != '@'
  }

  /** The date, email and phone deductions, which apply only when some work date is set. */
  function DateDeductions(r: ResumeContent): nat
  {
    var dates := WorkDates(r.workExperience);
    var p := Personal(r);
    if dates == [] then 0
    else
      (if !AllYearMonth(dates) then 10 else 0)
      + (if p.email != [] && !LooseEmail(p.email) then 5 else 0)
      + (if p.phone != [] && CountDigits(p.phone) < 10 then 5 else 0)
  }

  /** The deductions of `_score_ats_compatibility`, before the floor at 0. */
  function CompatibilityDeductions(r: ResumeContent): nat
  {
    (if CountWhere(AllText(r), IsSpecialChar) > 20 then 10 else 0)
    + 15 * (3 - StructureSectionsPresent3(r))
    + DateDeductions(r)
  }

  /** How many of personal info, work experience and education are present. */
  function StructureSectionsPresent3(r: ResumeContent): nat
  {
    Indicator(r.personalInfo.Some?) + Indicator(r.workExperience != []) + Indicator(r.education != [])
  }

  /** `_score_ats_compatibility`. */
  function AtsCompatibilityScore(r: ResumeContent): int
  {
    Max0(100 - CompatibilityDeductions(r))
  }

  /**
   * The compatibility score lies in [25, 100], so the floor at 0 never
   * binds; without any work date the email and phone are not checked.
   */
  lemma AtsCompatibilityRange(r: ResumeContent)
    ensures 25 <= AtsCompatibilityScore(r) <= 100
    ensures AtsCompatibilityScore(r) == 100 - CompatibilityDeductions(r)
    ensures WorkDates(r.workExperience) == [] ==>
      AtsCompatibilityScore(r) == 100 - (if CountWhere(AllText(r), IsSpecialChar) > 20 then 10 else 0)
        - 15 * (3 - StructureSectionsPresent3(r))
  {
  }

  /** The loop over personal info, work experience and education counting the absent ones. */
  method CountMissingSections(r: ResumeContent) returns (missing: nat)
    ensures missing == 3 - StructureSectionsPresent3(r)
  {
    var required := [r.personalInfo.Some?, r.workExperience != [], r.education != []];
    missing := 0;
    var i := 0;
    while i < |required|
      invariant 0 <= i <= |required|
      invariant missing == CountWhere(required[..i], Absent)
    {
      if !required[i] {
        missing := missing + 1;
      }
      assert required[..i + 1][..i] == required[..i];
      i := i + 1;
    }
    assert required[..i] == required;
    CountAbsent(required[0], required[1], required[2]);
  }

  /** Collects the work dates and checks them and, when there are any, the email and phone. */
  method CheckDates(r: ResumeContent) returns (deduction: nat)
    ensures deduction == DateDeductions(r)
  {
    deduction := 0;
    var dates := AppendParts([], r.workExperience, JobDates);
    assert dates == WorkDates(r.workExperience);
    if dates != [] {
      if !AllYearMonth(dates) {
        deduction := deduction + 10;
      }
      var p := Personal(r);
      if p.email != [] && !LooseEmail(p.email) {
        deduction := deduction + 5;
      }
      if p.phone != [] && CountDigits(p.phone) < 10 {
        deduction := deduction + 5;
      }
    }
  }

  /** `_score_ats_compatibility`, deducting step by step. */
  method ScoreAtsCompatibility(r: ResumeContent) returns (score: int)
    ensures score == AtsCompatibilityScore(r)
  {
    score := 100;
    var text := ExtractAllText(r);
    var specialChars := CountMatching(text, IsSpecialChar);
    if specialChars > 20 {
      score := score - 10;
    }
    var missing := CountMissingSections(r);
    score := score - 15 * missing;
    var dateDeduction := CheckDates(r);
    score := score - dateDeduction;
    score := Max0(score);
  }

  predicate Absent(present: bool) { !present }

  lemma CountAbsent(a: bool, b: bool, c: bool)
    ensures CountWhere([a, b, c], Absent) == 3 - (Indicator(a) + Indicator(b) + Indicator(c))
  {
    var xs := [a, b, c];
    assert xs[..2][..1][..0] == [] && xs[..2][..1] == [a] && xs[..2] == [a, b];
    assert CountWhere(xs[..2][..1], Absent) == Indicator(!a);
    assert CountWhere(xs[..2], Absent) == Indicator(!a) + Indicator(!b);
  }

  // ---------------------------------------------------------------------------
  // Industry alignment

  /** How many of `terms` occur in `text`. */
  function TermsFound(text: string, terms: seq<string>): (n: nat)
    ensures n <= |terms|
  {
    if terms == [] then 0
    else TermsFound(text, terms[..|terms| - 1]) + Indicator(Contains(text, terms[|terms| - 1]))
  }

  function CertificationsMentioning(certs: seq<Certification>, terms: seq<string>): (n: nat)
    ensures n <= |certs|
  {
    if certs == [] then 0
    else
      var last := certs[|certs| - 1];
      CertificationsMentioning(certs[..|certs| - 1], terms) + Indicator(MentionsAny(CertificationValues(last), terms))
  }

  function JobsMentioning(work: seq<WorkExperience>, terms: seq<string>): (n: nat)
    ensures n <= |work|
  {
    if work == [] then 0
    else JobsMentioning(work[..|work| - 1], terms) + Indicator(MentionsAny(JobValues(work[|work| - 1]), terms))
  }

  function EducationMentioning(edu: seq<Education>, terms: seq<string>): (n: nat)
    ensures n <= |edu|
  {
    if edu == [] then 0
    else EducationMentioning(edu[..|edu| - 1], terms) + Indicator(MentionsAny(EducationValues(edu[|edu| - 1]), terms))
  }

  /** `skills.get('technical', []) or skills.get('languages', [])`. */
  function TechnicalSkills(skills: seq<SkillCategory>): seq<string>
  {
    var technical := LookupSkills(skills, "technical");
    if technical != [] then technical else LookupSkills(skills, "languages")
  }

  /** `_score_tech_alignment` on the lower-cased résumé text. */
  function TechAlignment(r: ResumeContent, text: string): (n: int)
    ensures 0 <= n <= 100
  {
    var techSkills := |TechnicalSkills(r.skills)|;
    var p := Personal(r);
    (if techSkills >= 5 then 30 else if techSkills >= 3 then 20 else 0)
    + Min(20, 5 * TermsFound(text, ["python", "java", "javascript", "c++", "c#", "ruby", "go", "rust"]))
    + Min(15, 3 * TermsFound(text, ["react", "angular", "django", "spring", "node", "docker", "kubernetes"]))
    + (if |r.projects| >= 2 then 15 else if r.projects != [] then 10 else 0)
    + Min(10, 5 * CertificationsMentioning(r.certifications,
        ["aws", "azure", "google cloud", "oracle", "cisco", "microsoft"]))
    + (if p.githubUrl != [] || p.portfolioUrl != [] then 10 else 0)
  }

  /** `_score_healthcare_alignment`. */
  function HealthcareAlignment(r: ResumeContent, text: string): (n: int)
    ensures 0 <= n <= 100
  {
    Min(30, 5 * TermsFound(text, ["patient", "clinical", "medical", "healthcare", "nursing", "therapy"]))
    + Min(25, 8 * CertificationsMentioning(r.certifications,
        ["rn", "lpn", "cna", "md", "np", "pa", "cpr", "bls", "acls"]))
    + Min(25, 8 * JobsMentioning(r.workExperience, ["clinical", "hospital", "clinic", "patient"]))
    + Min(20, 10 * EducationMentioning(r.education, ["nursing", "medicine", "health", "biology", "psychology"]))
  }

  /** `_score_finance_alignment`. */
  function FinanceAlignment(r: ResumeContent, text: string): (n: int)
    ensures 0 <= n <= 100
  {
    Min(25, 4 * TermsFound(text, ["financial", "investment", "banking", "accounting", "analysis", "risk"]))
    + Min(20, 5 * TermsFound(text, ["excel", "bloomberg", "quickbooks", "sap", "oracle financials"]))
    + (if HasQuantifiedAchievements(r.workExperience) then 25 else 0)
    + Min(20, 10 * CertificationsMentioning(r.certifications, ["cpa", "cfa", "frm", "mba", "series 7", "series 66"]))
    + Min(10, 5 * EducationMentioning(r.education, ["finance", "accounting", "economics", "business", "mba"]))
  }

  /** `_score_general_alignment`: 50 to start with, capped at 100. */
  function GeneralAlignment(r: ResumeContent, text: string): (n: int)
    ensures 50 <= n <= 100
  {
    Min(100, 50
      + Min(20, 3 * TermsFound(text, ["managed", "led", "developed", "implemented", "achieved", "improved"]))
      + (if HasQuantifiedAchievements(r.workExperience) then 15 else 0)
      + (if r.professionalSummary != [] then 10 else 0)
      + (if |r.workExperience| >= 3 then 5 else 0))
  }

  /** The alignment points of the industry's own rules, on the lower-cased résumé text. */
  function AlignmentPoints(r: ResumeContent, industry: string): (n: int)
    ensures 0 <= n <= 100
  {
    var text := Lower(AllText(r));
    var key := Lower(industry);
    if key == "technology" then TechAlignment(r, text)
    else if key == "healthcare" then HealthcareAlignment(r, text)
    else if key == "finance" then FinanceAlignment(r, text)
    else GeneralAlignment(r, text)
  }

  /** `_score_industry_alignment`: 50 without an industry, otherwise capped at 100. */
  function IndustryAlignmentScore(r: ResumeContent, industry: string): int
  {
    if industry == [] then 50 else Min(100, AlignmentPoints(r, industry))
  }

  /**
   * Each industry's rules give at most 100 points, so the cap never binds;
   * the general rules give at least 50.
   */
  lemma IndustryAlignmentRange(r: ResumeContent, industry: string)
    ensures industry != [] ==> IndustryAlignmentScore(r, industry) == AlignmentPoints(r, industry)
    ensures 0 <= IndustryAlignmentScore(r, industry) <= 100
    ensures 50 <= GeneralAlignment(r, Lower(AllText(r))) <= 100
    ensures Lower(industry) !in {"technology", "healthcare", "finance"} ==> IndustryAlignmentScore(r, industry) >= 50
  {
  }

  // ---------------------------------------------------------------------------
  // Score bands, improvement areas and the comprehensive score

  datatype Level = Excellent | Good | Fair | NeedsImprovement
  {
    function Rank(): nat
    {
      match this
      case Excellent => 3
      case Good => 2
      case Fair => 1
      case NeedsImprovement => 0
    }

    function Color(): string
    {
      match this
      case Excellent => "green"
      case Good => "blue"
      case Fair => "orange"
      case NeedsImprovement => "red"
    }
  }

  /** The band of a score: Excellent from 80, Good from 60, Fair from 40. */
  function LevelOf(score: real): Level
  {
    if score >= 80.0 then Excellent
    else if score >= 60.0 then Good
    else if score >= 40.0 then Fair
    else NeedsImprovement
  }

  /** The lowest score of each band. */
  function LevelFloor(level: Level): real
  {
    match level
    case Excellent => 80.0
    case Good => 60.0
    case Fair => 40.0
    case NeedsImprovement => 0.0
  }

  /**
   * A score lands in the highest band whose floor it reaches, and a higher
   * score never lands in a lower band.
   */
  lemma LevelBands(score: real, other: real)
    ensures score >= LevelFloor(LevelOf(score)) || LevelOf(score) == NeedsImprovement
    ensures forall l: Level :: l.Rank() > LevelOf(score).Rank() ==> score < LevelFloor(l)
    ensures score <= other ==> LevelOf(score).Rank() <= LevelOf(other).Rank()
  {
  }

  datatype BreakdownEntry = BreakdownEntry(score: real, level: Level, color: string)

  /** `_generate_score_breakdown`: every factor with its score, band and colour. */
  function ScoreBreakdown(s: Scores): (b: map<Factor, BreakdownEntry>)
    ensures forall f :: f in b && b[f].score == s.Of(f) && b[f].color == b[f].level.Color()
    ensures forall f :: b[f].level == LevelOf(s.Of(f))
  {
    forall f: Factor
      ensures f in Factors
    {
      AllFactors(f);
    }
    map f: Factor | f in Factors :: BreakdownEntry(s.Of(f), LevelOf(s.Of(f)), LevelOf(s.Of(f)).Color())
  }

  function Threshold(f: Factor): real
  {
    match f
    case Formatting => 70.0
    case ContentQuality => 65.0
    case KeywordRelevance => 60.0
    case SectionCompleteness => 75.0
    case AtsCompatibility => 80.0
    case IndustryAlignment => 55.0
  }

  /** The order in which weak factors are reported. */
  const PriorityOrder: seq<Factor> :=
    [AtsCompatibility, SectionCompleteness, Formatting, ContentQuality, KeywordRelevance, IndustryAlignment]

  /** The position of a factor in the priority order. */
  function Priority(f: Factor): nat
  {
    match f
    case AtsCompatibility => 0
    case SectionCompleteness => 1
    case Formatting => 2
    case ContentQuality => 3
    case KeywordRelevance => 4
    case IndustryAlignment => 5
  }

  predicate IsWeak(s: Scores, f: Factor)
  {
    s.Of(f) < Threshold(f)
  }

  /** The factors of `fs` below their threshold, in the order of `fs`. */
  function WeakFactors(s: Scores, fs: seq<Factor>): seq<Factor>
  {
    if fs == [] then []
    else WeakFactors(s, fs[..|fs| - 1]) + (if IsWeak(s, fs[|fs| - 1]) then [fs[|fs| - 1]] else [])
  }

  /** `_identify_improvement_areas`: the first three weak factors in priority order. */
  function ImprovementAreas(s: Scores): seq<Factor>
  {
    Take(WeakFactors(s, PriorityOrder), 3)
  }

  predicate InPriorityOrder(fs: seq<Factor>)
  {
    forall i, j :: 0 <= i < j < |fs| ==> Priority(fs[i]) < Priority(fs[j])
  }

  lemma {:induction false} WeakFactorsShape(s: Scores, fs: seq<Factor>)
    requires InPriorityOrder(fs)
    ensures forall f :: f in WeakFactors(s, fs) <==> f in fs && IsWeak(s, f)
    ensures InPriorityOrder(WeakFactors(s, fs))
  {
    if fs != [] {
      var init := fs[..|fs| - 1];
      var last := fs[|fs| - 1];
      WeakFactorsShape(s, init);
      var w := WeakFactors(s, init);
      forall i | 0 <= i < |w|
        ensures Priority(w[i]) < Priority(last)
      {
        assert w[i] in init;
        var k :| 0 <= k < |init| && init[k] == w[i];
        assert fs[k] == w[i];
      }
    }
  }

  lemma PriorityOrderIsOrdered()
    ensures InPriorityOrder(PriorityOrder)
    ensures forall f :: f in PriorityOrder
  {
    forall i, j | 0 <= i < j < |PriorityOrder|
      ensures Priority(PriorityOrder[i]) < Priority(PriorityOrder[j])
    {
      assert forall k :: 0 <= k < |PriorityOrder| ==> Priority(PriorityOrder[k]) == k;
    }
    forall f: Factor
      ensures f in PriorityOrder
    {
      assert PriorityOrder[Priority(f)] == f;
    }
  }

  /**
   * At most three factors are reported, each below its own threshold, in
   * priority order; a weak factor is left out only when three more urgent
   * weak factors are reported, so with fewer than three every weak factor is
   * there.
   */
  lemma ImprovementAreasShape(s: Scores)
    ensures |ImprovementAreas(s)| <= 3
    ensures forall f :: f in ImprovementAreas(s) ==> IsWeak(s, f)
    ensures InPriorityOrder(ImprovementAreas(s))
    ensures forall f :: IsWeak(s, f) && f !in ImprovementAreas(s) ==>
      |ImprovementAreas(s)| == 3 && forall g :: g in ImprovementAreas(s) ==> Priority(g) < Priority(f)
  {
    PriorityOrderIsOrdered();
    WeakFactorsShape(s, PriorityOrder);
    var w := WeakFactors(s, PriorityOrder);
    var areas := ImprovementAreas(s);
    assert areas == w[..|areas|];
    forall f | IsWeak(s, f) && f !in areas
      ensures |areas| == 3 && forall g :: g in areas ==> Priority(g) < Priority(f)
    {
      assert f in w;
      var k :| 0 <= k < |w| && w[k] == f;
      assert k >= |areas|;
      forall g | g in areas
        ensures Priority(g) < Priority(f)
      {
        var m :| 0 <= m < |areas| && areas[m] == g;
        assert w[m] == g;
      }
    }
  }

  /** `_identify_improvement_areas`, appending weak factors in a loop and keeping three. */
  method IdentifyImprovementAreas(s: Scores) returns (areas: seq<Factor>)
    ensures areas == ImprovementAreas(s)
  {
    var weak := [];
    var i := 0;
    while i < |PriorityOrder|
      invariant 0 <= i <= |PriorityOrder|
      invariant weak == WeakFactors(s, PriorityOrder[..i])
    {
      var f := PriorityOrder[i];
      if s.Of(f) < Threshold(f) {
        weak := weak + [f];
      }
      assert PriorityOrder[..i + 1][..i] == PriorityOrder[..i];
      i := i + 1;
    }
    assert PriorityOrder[..i] == PriorityOrder;
    areas := Take(weak, 3);
  }

  /** The six detailed scores, with the keyword relevance of a wordless résumé taken as no density. */
  function DetailedScores(r: ResumeContent, job: string, industry: string): Scores
  {
    Scores(
      FormattingScore(r),
      ContentQualityScore(r),
      KeywordRelevanceScore(r, job, industry),
      SectionCompletenessScore(r),
      AtsCompatibilityScore(r) as real,
      IndustryAlignmentScore(r, industry) as real)
  }

  /** Every detailed score lies in [0, 100]. */
  lemma DetailedScoresInRange(r: ResumeContent, job: string, industry: string)
    ensures DetailedScores(r, job, industry).InRange()
  {
    var s := DetailedScores(r, job, industry);
    assert 0.0 <= s.formatting <= 100.0 by { FormattingParts(r); }
    assert 0.0 <= s.contentQuality <= 100.0 by { ContentQualityRange(r); }
    assert 0.0 <= s.keywordRelevance <= 100.0;
    assert 0.0 <= s.sectionCompleteness <= 100.0 by { SectionCompletenessRange(r); }
    assert 0.0 <= s.atsCompatibility <= 100.0 by { AtsCompatibilityRange(r); }
    assert 0.0 <= s.industryAlignment <= 100.0 by { IndustryAlignmentRange(r, industry); }
    FieldsInRange(s);
  }

  lemma FieldsInRange(s: Scores)
    requires 0.0 <= s.formatting <= 100.0 && 0.0 <= s.contentQuality <= 100.0
    requires 0.0 <= s.keywordRelevance <= 100.0 && 0.0 <= s.sectionCompleteness <= 100.0
    requires 0.0 <= s.atsCompatibility <= 100.0 && 0.0 <= s.industryAlignment <= 100.0
    ensures s.InRange()
  {
  }

  datatype ComprehensiveScore = ComprehensiveScore(
    overallScore: real,
    detailedScores: Scores,
    scoreBreakdown: map<Factor, BreakdownEntry>,
    improvementAreas: seq<Factor>)

  /** The comprehensive score built from the six detailed scores. */
  predicate IsComprehensiveScore(c: ComprehensiveScore, s: Scores)
  {
    c.detailedScores == s
    && c.overallScore == OverallScore(s)
    && c.scoreBreakdown == ScoreBreakdown(s)
    && c.improvementAreas == ImprovementAreas(s)
  }

  /** The six factor scores, each computed by its own method. */
  method ScoreFactors(r: ResumeContent, job: string, industry: string) returns (s: Scores)
    ensures s == DetailedScores(r, job, industry)
  {
    var formatting := ScoreFormatting(r);
    var contentQuality := ScoreContentQuality(r);
    var keywordRelevance := ScoreKeywordRelevance(r, job, industry);
    var sectionCompleteness := ScoreSectionCompleteness(r);
    var atsCompatibility := ScoreAtsCompatibility(r);
    var industryAlignment := IndustryAlignmentScore(r, industry);
    s := Scores(formatting, contentQuality, keywordRelevance, sectionCompleteness,
      atsCompatibility as real, industryAlignment as real);
  }

  /**
   * `calculate_comprehensive_score`: the detailed scores, their weighted
   * overall score (in [0, 100]), the bands and the improvement areas.
   */
  method CalculateComprehensiveScore(r: ResumeContent, job: string, industry: string)
    returns (result: ComprehensiveScore)
    ensures IsComprehensiveScore(result, DetailedScores(r, job, industry))
    ensures 0.0 <= result.overallScore <= 100.0
  {
    var s := ScoreFactors(r, job, industry);
    DetailedScoresInRange(r, job, industry);
    OverallIsWeightedAverage(s, s, 0.0, 100.0);
    var areas := IdentifyImprovementAreas(s);
    result := ComprehensiveScore(OverallScore(s), s, ScoreBreakdown(s), areas);
  }
}
