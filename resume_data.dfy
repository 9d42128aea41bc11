/**
 * The structured résumé shared by the scoring, validation and enhancement
 * services, following the shape of the résumé schema. A string field that is
 * absent, `None` or `""` is the empty string: every rule of the services only
 * looks at whether such a field is truthy.
 */
module ResumeData {
  import opened Wrappers
  import opened Text
  import opened Basics

  datatype PersonalInfo = PersonalInfo(
    firstName: string,
    lastName: string,
    email: string,
    phone: string,
    address: string,
    linkedinUrl: string,
    portfolioUrl: string,
    githubUrl: string)

  /** What the services read when `personal_info` is absent: `{}`. */
  const NoPersonalInfo := PersonalInfo("", "", "", "", "", "", "", "")

  datatype WorkExperience = WorkExperience(
    jobTitle: string,
    company: string,
    startDate: string,
    endDate: string,
    location: string,
    responsibilities: seq<string>,
    isCurrent: bool)

  datatype Education = Education(
    degree: string,
    institution: string,
    graduationYear: string,
    gpa: Option<real>,
    location: string,
    fieldOfStudy: string,
    honors: string)

  datatype Certification = Certification(
    name: string,
    issuer: string,
    issueDate: string,
    expiryDate: string,
    credentialId: string,
    credentialUrl: string)

  datatype Project = Project(
    name: string,
    description: string,
    technologies: seq<string>,
    url: string,
    githubUrl: string,
    startDate: string,
    endDate: string)

  datatype Language = Language(language: string, proficiency: string)

  /** One entry of the `skills` dictionary: a category name and its list of skills. */
  datatype SkillCategory = SkillCategory(name: string, items: seq<string>)

  /**
   * The résumé content dictionary. `personalInfo` is `None` when the key is
   * absent or holds `{}`; `skills` lists the dictionary's entries in order.
   */
  datatype ResumeContent = ResumeContent(
    personalInfo: Option<PersonalInfo>,
    professionalSummary: string,
    workExperience: seq<WorkExperience>,
    education: seq<Education>,
    skills: seq<SkillCategory>,
    certifications: seq<Certification>,
    projects: seq<Project>,
    languages: seq<Language>)

  /** `resume_content.get('personal_info', {})` read field by field. */
  function Personal(r: ResumeContent): PersonalInfo
  {
    r.personalInfo.GetOr(NoPersonalInfo)
  }

  /** True of `{}`: every section is falsy. */
  predicate IsEmptyContent(r: ResumeContent)
  {
    r.personalInfo.None? && r.professionalSummary == [] && r.workExperience == []
    && r.education == [] && r.skills == [] && r.certifications == []
    && r.projects == [] && r.languages == []
  }

  /** All skill values, category after category. */
  function SkillItems(skills: seq<SkillCategory>): seq<string>
  {
    if skills == [] then [] else SkillItems(skills[..|skills| - 1]) + skills[|skills| - 1].items
  }

  /** `sum(len(v) for v in skills.values())`. */
  function SkillTotal(skills: seq<SkillCategory>): nat
  {
    if skills == [] then 0 else SkillTotal(skills[..|skills| - 1]) + |skills[|skills| - 1].items|
  }

  /** `skills.get(name, [])`. */
  function LookupSkills(skills: seq<SkillCategory>, name: string): seq<string>
  {
    if skills == [] then []
    else if skills[0].name == name then skills[0].items
    else LookupSkills(skills[1..], name)
  }

  /** `sum(len(job['responsibilities']) for job in work)`. */
  function ResponsibilityTotal(work: seq<WorkExperience>): nat
  {
    if work == [] then 0
    else ResponsibilityTotal(work[..|work| - 1]) + |work[|work| - 1].responsibilities|
  }

  /**
   * The kinds of value a résumé section can hold, as far as the completeness
   * rules look at them: nothing, a string, or a list or dictionary that is
   * empty or not.
   */
  datatype SectionValue = Missing | Str(s: string) | Collection(nonEmpty: bool)

  /** Python truthiness of a section value. */
  predicate Truthy(v: SectionValue)
  {
    match v
    case Missing => false
    case Str(s) => s != []
    case Collection(nonEmpty) => nonEmpty
  }

  datatype Section = Section(name: string, value: SectionValue)

  /** The five sections every résumé is expected to have, in the services' order. */
  function RequiredSections(r: ResumeContent): (ss: seq<Section>)
    ensures |ss| == 5
  {
    [ Section("personal_info", Collection(r.personalInfo.Some?)),
      Section("professional_summary", Str(r.professionalSummary)),
      Section("work_experience", Collection(r.workExperience != [])),
      Section("education", Collection(r.education != [])),
      Section("skills", Collection(r.skills != [])) ]
  }

  /** The three optional sections. */
  function OptionalSections(r: ResumeContent): (ss: seq<Section>)
    ensures |ss| == 3
  {
    [ Section("certifications", Collection(r.certifications != [])),
      Section("projects", Collection(r.projects != [])),
      Section("languages", Collection(r.languages != [])) ]
  }

  /** The fixed set of strong action verbs both scorers look for. */
  const ActionVerbs: set<string> := {
    "achieved", "administered", "analyzed", "built", "created", "developed",
    "implemented", "improved", "increased", "led", "managed", "organized",
    "reduced", "streamlined", "supervised", "designed", "executed", "delivered" }

  const VerbPunctuation: set<char> := {'.', ',', '!', '?', ':', ';'}

  /** `resp.lower().split()[0].rstrip('.,!?:;')`, or `""` for a blank bullet. */
  function OpeningWord(resp: string): string
  {
    var ws := Words(Lower(resp));
    if ws == [] then [] else TrimEndChars(ws[0], VerbPunctuation)
  }

  /** The action verbs that open some bullet of `resps`. */
  function BulletVerbs(resps: seq<string>): (vs: set<string>)
    ensures vs <= ActionVerbs
  {
    if resps == [] then {}
    else
      var w := OpeningWord(resps[|resps| - 1]);
      BulletVerbs(resps[..|resps| - 1]) + (if w in ActionVerbs then {w} else {})
  }

  /** The action verbs that open some responsibility of some job. */
  function VerbsUsed(work: seq<WorkExperience>): (vs: set<string>)
    ensures vs <= ActionVerbs
  {
    if work == [] then {}
    else VerbsUsed(work[..|work| - 1]) + BulletVerbs(work[|work| - 1].responsibilities)
  }

  /** Some bullet of `resps` opens with the word `v`. */
  predicate OpensBullet(resps: seq<string>, v: string)
  {
    exists k :: 0 <= k < |resps| && OpeningWord(resps[k]) == v
  }

  lemma {:induction false} BulletVerbsMeaning(resps: seq<string>, v: string)
    ensures v in BulletVerbs(resps) <==> v in ActionVerbs && OpensBullet(resps, v)
  {
    if resps != [] {
      BulletVerbsMeaning(resps[..|resps| - 1], v);
      OpensBulletLast(resps, v);
    }
  }

  /** A bullet opening with `v` is either the last bullet or one of the others. */
  lemma OpensBulletLast(resps: seq<string>, v: string)
    requires resps != []
    ensures OpensBullet(resps, v) <==>
      OpensBullet(resps[..|resps| - 1], v) || OpeningWord(resps[|resps| - 1]) == v
  {
    var init := resps[..|resps| - 1];
    if OpensBullet(resps, v) {
      var k :| 0 <= k < |resps| && OpeningWord(resps[k]) == v;
      if k < |init| { assert init[k] == resps[k]; }
    }
    if OpensBullet(init, v) {
      var k :| 0 <= k < |init| && OpeningWord(init[k]) == v;
      assert resps[k] == init[k];
    }
  }

  /**
   * A verb is counted exactly when it is one of the fixed action verbs and it
   * opens (after trailing punctuation is dropped) some responsibility bullet
   * of some job.
   */
  lemma {:induction false} VerbsUsedMeaning(work: seq<WorkExperience>, v: string)
    ensures v in VerbsUsed(work) <==>
      v in ActionVerbs && exists j :: 0 <= j < |work| && OpensBullet(work[j].responsibilities, v)
  {
    if work != [] {
      var init := work[..|work| - 1];
      var last := work[|work| - 1];
      VerbsUsedMeaning(init, v);
      BulletVerbsMeaning(last.responsibilities, v);
      if exists j :: 0 <= j < |work| && OpensBullet(work[j].responsibilities, v) {
        var j :| 0 <= j < |work| && OpensBullet(work[j].responsibilities, v);
        if j < |init| { assert init[j] == work[j]; }
      }
      if exists j :: 0 <= j < |init| && OpensBullet(init[j].responsibilities, v) {
        var j :| 0 <= j < |init| && OpensBullet(init[j].responsibilities, v);
        assert work[j] == init[j];
      }
    }
  }

  /** The loop both scorers run over every bullet, collecting the verbs in a set. */
  method CollectActionVerbs(work: seq<WorkExperience>) returns (found: set<string>)
    ensures found == VerbsUsed(work)
    ensures |found| <= |ActionVerbs|
  {
    found := {};
    var j := 0;
    while j < |work|
      invariant 0 <= j <= |work|
      invariant found == VerbsUsed(work[..j])
    {
      found := AddBulletVerbs(found, work[j].responsibilities);
      assert work[..j + 1][..j] == work[..j];
      j := j + 1;
    }
    assert work[..j] == work;
    SubsetCardinality(found, ActionVerbs);
  }

  /** The inner loop over one job's bullets. */
  method AddBulletVerbs(before: set<string>, resps: seq<string>) returns (found: set<string>)
    ensures found == before + BulletVerbs(resps)
  {
    found := before;
    var k := 0;
    while k < |resps|
      invariant 0 <= k <= |resps|
      invariant found == before + BulletVerbs(resps[..k])
    {
      var first := OpeningWord(resps[k]);
      BulletVerbsStep(resps, k);
      if first in ActionVerbs {
        found := found + {first};
      }
      k := k + 1;
    }
    assert resps[..k] == resps;
  }

  lemma BulletVerbsStep(resps: seq<string>, k: nat)
    requires k < |resps|
    ensures var w := OpeningWord(resps[k]);
      BulletVerbs(resps[..k + 1]) == BulletVerbs(resps[..k]) + (if w in ActionVerbs then {w} else {})
  {
    assert resps[..k + 1][..k] == resps[..k];
  }

  /** The start and end dates of a job that are set. */
  function JobDates(job: WorkExperience): seq<string>
  {
    IfPresent(job.startDate) + IfPresent(job.endDate)
  }

  /** The set start and end dates, job after job, as the formatting checks gather them. */
  function WorkDates(work: seq<WorkExperience>): seq<string>
  {
    FlatMap(work, JobDates)
  }

  /** A date is gathered exactly when it is non-empty and some job starts or ends on it. */
  lemma {:induction false} WorkDatesMembers(work: seq<WorkExperience>, d: string)
    ensures d in WorkDates(work) <==>
      d != [] && exists j | 0 <= j < |work| :: d == work[j].startDate || d == work[j].endDate
  {
    if work != [] {
      var init := work[..|work| - 1];
      WorkDatesMembers(init, d);
      if exists j | 0 <= j < |init| :: d == init[j].startDate || d == init[j].endDate {
        var j :| 0 <= j < |init| && (d == init[j].startDate || d == init[j].endDate);
        assert work[j] == init[j];
      }
      if exists j | 0 <= j < |work| :: d == work[j].startDate || d == work[j].endDate {
        var j :| 0 <= j < |work| && (d == work[j].startDate || d == work[j].endDate);
        if j < |init| {
          assert init[j] == work[j];
        }
      }
    }
  }

  // The field values of an entry, as `str(entry)` shows them to a substring search.

  function CertificationValues(cert: Certification): seq<string>
  {
    [cert.name, cert.issuer, cert.issueDate, cert.expiryDate, cert.credentialId, cert.credentialUrl]
  }

  function JobValues(job: WorkExperience): seq<string>
  {
    [job.jobTitle, job.company, job.startDate, job.endDate, job.location] + job.responsibilities
  }

  function EducationValues(edu: Education): seq<string>
  {
    [edu.degree, edu.institution, edu.graduationYear, edu.location, edu.fieldOfStudy, edu.honors]
  }

  function PersonalValues(p: PersonalInfo): seq<string>
  {
    [p.firstName, p.lastName, p.email, p.phone, p.address, p.linkedinUrl, p.portfolioUrl, p.githubUrl]
  }

  function ProjectValues(project: Project): seq<string>
  {
    [project.name, project.description, project.url, project.githubUrl, project.startDate, project.endDate]
    + project.technologies
  }

  function SkillCategoryValues(category: SkillCategory): seq<string>
  {
    [category.name] + category.items
  }
}
