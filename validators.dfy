/**
 * The résumé field predicates and section validators. Each section validator
 * walks the entries of its section and collects one error per broken rule;
 * an error is a structured value standing for the message the service
 * formats (section, 1-based entry number, field).
 */
module Validators {
  import opened Wrappers
  import opened Text
  import opened Basics
  import opened ResumeData

  // ---------------------------------------------------------------------------
  // Field predicates

  predicate IsEmailLocalChar(c: char) { IsLetter(c) || IsDigit(c) || c in "._%+-" }
  predicate IsEmailDomainChar(c: char) { IsLetter(c) || IsDigit(c) || c in ".-" }

  /** `t` splits as local part, `@` at `at`, domain, `.` at `dot`, and two or more letters. */
  predicate EmailParts(t: string, at: int, dot: int)
  {
    1 <= at && at + 1 < dot && dot + 3 <= |t|
    && (forall i :: 0 <= i < at ==> IsEmailLocalChar(t[i]))
    && t[at] == '@'
    && (forall i :: at < i < dot ==> IsEmailDomainChar(t[i]))
    && t[dot] == '.'
    && (forall i :: dot < i < |t| ==> IsLetter(t[i]))
  }

  predicate EmailBody(t: string)
  {
    exists at, dot | 0 <= at < dot < |t| :: EmailParts(t, at, dot)
  }

  /** `$` also matches just before a final newline. */
  predicate WithOptionalNewline(s: string, body: string -> bool)
  {
    body(s) || (s != [] && s[|s| - 1] == '\n' && body(s[..|s| - 1]))
  }

  /** `validate_email`: `^[a-zA-Z0-9._%+-]+@[a-zA-Z0-9.-]+\.[a-zA-Z]{2,}$`. */
  predicate ValidEmail(s: string)
  {
    WithOptionalNewline(s, EmailBody)
  }

  /** An accepted e-mail address holds exactly one `@`. */
  lemma ValidEmailHasOneAt(s: string)
    requires ValidEmail(s)
    ensures exists k :: 0 <= k < |s| && s[k] == '@' && forall i :: 0 <= i < |s| && s[i] == '@' ==> i == k
  {
    var t := if EmailBody(s) then s else s[..|s| - 1];
    var at, dot :| 0 <= at < dot < |t| && EmailParts(t, at, dot);
    assert s[at] == t[at];
    forall i | 0 <= i < |s| && s[i] == '@' ensures i == at {
      if i < |t| {
        assert t[i] == s[i];
      }
    }
  }

  lemma EmailExamples()
    ensures ValidEmail("jane.doe@example.com")
    ensures !ValidEmail("jane@example")
  {
    assert EmailParts("jane.doe@example.com", 8, 16);
    var t := "jane@example";
    assert forall i | 0 <= i < |t| :: t[i] != '.';
    assert t[|t| - 1] != '\n';
  }

  /** `validate_phone`: at least ten digits once every non-digit is removed. */
  predicate ValidPhone(s: string)
  {
    CountDigits(s) >= 10
  }

  lemma {:induction false} CountDigitsAppend(a: string, b: string)
    ensures CountDigits(a + b) == CountDigits(a) + CountDigits(b)
  {
    if a != [] {
      CountDigitsAppend(a[1..], b);
      assert (a + b)[1..] == a[1..] + b;
    } else {
      assert a + b == b;
    }
  }

  /** Separators such as spaces, dashes and brackets never change whether a phone number is accepted. */
  lemma PhoneIgnoresSeparators(a: string, c: char, b: string)
    requires !IsDigit(c)
    ensures ValidPhone(a + [c] + b) == ValidPhone(a + b)
  {
    CountDigitsAppend(a, [c] + b);
    CountDigitsAppend(a, b);
    assert ([c] + b)[1..] == b;
    assert CountDigits([c] + b) == CountDigits(b);
    assert a + [c] + b == a + ([c] + b);
  }

  predicate IsHostChar(c: char) { IsLetter(c) || IsDigit(c) || c in "-@:%._+~#=" }
  predicate IsTldChar(c: char) { IsLetter(c) || IsDigit(c) || c == '(' || c == ')' }
  predicate IsPathChar(c: char) { IsLetter(c) || IsDigit(c) || c in "-()@:%_+.~#?&/=" }

  /** The host between the scheme end `p` and the last dot: 1 to 256 host characters, after an optional `www.`. */
  predicate HostPart(t: string, p: int, dot: int)
    requires 0 <= p <= dot <= |t|
  {
    (1 <= dot - p <= 256 && forall i :: p <= i < dot ==> IsHostChar(t[i]))
    || (OccursAt(t, "www.", p) && 1 <= dot - p - 4 <= 256 && forall i :: p + 4 <= i < dot ==> IsHostChar(t[i]))
  }

  predicate UrlParts(t: string, p: int, dot: int, j: int)
  {
    ((p == 7 && StartsWith(t, "http://")) || (p == 8 && StartsWith(t, "https://")))
    && p < dot < j <= |t|
    && HostPart(t, p, dot)
    && t[dot] == '.'
    && 1 <= j - dot - 1 <= 6
    && (forall i :: dot < i < j ==> IsTldChar(t[i]))
    && WordBoundary(t, j)
    && (forall i :: j <= i < |t| ==> IsPathChar(t[i]))
  }

  predicate UrlBody(t: string)
  {
    exists p, dot, j | 7 <= p <= 8 && p < dot < j <= |t| :: UrlParts(t, p, dot, j)
  }

  /** `validate_url`: empty, or an http(s) URL matching the service's pattern. */
  predicate ValidUrl(s: string)
  {
    s == [] || WithOptionalNewline(s, UrlBody)
  }

  /** Every non-empty accepted URL starts with `http://` or `https://`. */
  lemma ValidUrlHasScheme(s: string)
    ensures ValidUrl(s) && s != [] ==> StartsWith(s, "http://") || StartsWith(s, "https://")
  {
    if ValidUrl(s) && s != [] {
      var t := if UrlBody(s) then s else s[..|s| - 1];
      var p, dot, j :| 7 <= p <= 8 && p < dot < j <= |t| && UrlParts(t, p, dot, j);
      if p == 7 {
        assert s[..7] == t[..7];
      } else {
        assert s[..8] == t[..8];
      }
    }
  }

  lemma UrlExamples()
    ensures ValidUrl("")
    ensures ValidUrl("https://jane.dev/cv")
    ensures !ValidUrl("jane.dev/cv")
    ensures !ValidUrl("http://a._x")
  {
    EmptyTldRejected();
    var t := "https://" + "jane" + "." + "dev" + "/cv";
    assert t == "https://jane.dev/cv";
    assert t[..8] == "https://";
    assert UrlParts(t, 8, 12, 16);
    var u := "jane.dev/cv";
    ValidUrlHasScheme(u);
    assert u[..7][0] != 'h';
    assert u[..8][0] != 'h';
  }

  /** A dot followed by no TLD character is no TLD: `http://a._x` is rejected. */
  lemma EmptyTldRejected()
    ensures !ValidUrl("http://a._x")
  {
    var t := "http://a._x";
    assert t[|t| - 1] != '\n';
    forall p, dot, j | 7 <= p <= 8 && p < dot < j <= |t|
      ensures !UrlParts(t, p, dot, j)
    {
      if dot == 8 {
        assert !IsTldChar(t[dot + 1]);
      } else {
        assert t[dot] != '.';
      }
    }
  }

  /** The month of `strptime('%Y-%m')`: `1[0-2]`, `0[1-9]` or a single `[1-9]`, and nothing after it. */
  predicate MonthField(m: string)
  {
    (|m| == 2 && ((m[0] == '1' && '0' <= m[1] <= '2') || (m[0] == '0' && '1' <= m[1] <= '9')))
    || (|m| == 1 && '1' <= m[0] <= '9')
  }

  /** Four digits for a year from 1, a dash, and a month. */
  predicate YearMonth(s: string)
  {
    |s| >= 6 && AllDigits(s[..4]) && s[..4] != "0000" && s[4] == '-' && MonthField(s[5..])
  }

  /** `validate_date_format`: empty, or parsed in full by `strptime(s, '%Y-%m')`. */
  predicate ValidDate(s: string)
  {
    s == [] || YearMonth(s)
  }

  function Pad2(n: nat): (s: string)
    requires n < 100
  {
    [DigitChar(n / 10), DigitChar(n % 10)]
  }

  function Pad4(n: nat): (s: string)
    requires n < 10000
  {
    [DigitChar(n / 1000), DigitChar(n / 100 % 10), DigitChar(n / 10 % 10), DigitChar(n % 10)]
  }

  /** `f"{year:04d}-{month:02d}"`. */
  function YearMonthString(year: nat, month: nat): (s: string)
    requires year < 10000 && month < 100
  {
    Pad4(year) + "-" + Pad2(month)
  }

  /**
   * A zero-padded `YYYY-MM` string is accepted exactly for a year from 1 and
   * a month from 1 to 12.
   */
  lemma ValidDateOfYearMonth(year: nat, month: nat)
    requires year < 10000 && month < 100
    ensures ValidDate(YearMonthString(year, month)) <==> 1 <= year && 1 <= month <= 12
  {
    var s := YearMonthString(year, month);
    assert s[..4] == Pad4(year) && s[5..] == Pad2(month);
    if year != 0 {
      assert year / 1000 != 0 || year / 100 % 10 != 0 || year / 10 % 10 != 0 || year % 10 != 0;
      assert Pad4(year) != "0000";
    }
  }

  /** The parser also takes a one-digit month, and rejects a month of 13 or a trailing character. */
  lemma DateExamples()
    ensures ValidDate("") && ValidDate("2024-3")
    ensures !ValidDate("2024-13") && !ValidDate("2024-03x") && !ValidDate("2024/03")
  {
    assert "2024-3"[..4] == "2024" && "2024-3"[5..] == "3";
    assert "2024-13"[5..] == "13";
    assert "2024-03x"[5..] == "03x";
  }

  predicate DigitsOrUnderscores(b: string)
  {
    forall i :: 0 <= i < |b| ==> IsDigit(b[i]) || b[i] == '_'
  }

  /** The digits of `int()`: `[0-9](_?[0-9])*`, each underscore followed by a digit. */
  predicate IntDigits(b: string)
  {
    b != [] && IsDigit(b[0]) && DigitsOrUnderscores(b)
    && forall i :: 0 <= i < |b| - 1 && b[i] == '_' ==> IsDigit(b[i + 1])
  }

  /** `b` with its underscores removed. */
  function DropUnderscores(b: string): (d: string)
    requires DigitsOrUnderscores(b)
    ensures AllDigits(d)
  {
    if b == [] then []
    else DropUnderscores(b[..|b| - 1]) + (if b[|b| - 1] == '_' then [] else [b[|b| - 1]])
  }

  /** `int(s)` on a string: surrounding whitespace, an optional sign, and digits with single underscores. */
  function ParseInt(s: string): Option<int>
  {
    var t := Strip(s);
    if t == [] then None
    else
      var neg := t[0] == '-';
      var b := if t[0] == '-' || t[0] == '+' then t[1..] else t;
      if !IntDigits(b) then None
      else
        var v: int := DigitsValue(DropUnderscores(b));
        Some(if neg then -v else v)
  }

  /** `validate_year_format`: a non-empty string whose integer lies in `[1900, currentYear + 10]`. */
  predicate ValidYear(s: string, currentYear: int)
  {
    s != [] && ParseInt(s).Some? && 1900 <= ParseInt(s).value <= currentYear + 10
  }

  lemma {:induction false} DropUnderscoresOfDigits(b: string)
    requires AllDigits(b)
    ensures DropUnderscores(b) == b
  {
    if b != [] {
      DropUnderscoresOfDigits(b[..|b| - 1]);
      assert b == b[..|b| - 1] + [b[|b| - 1]];
    }
  }

  lemma StripOfDigits(s: string)
    requires s != [] && AllDigits(s)
    ensures Strip(s) == s
  {
    DigitNotSpace(s[0]);
    assert TrimStart(s) == s;
    DigitNotSpace(s[|s| - 1]);
    assert TrimEnd(s) == s;
  }

  lemma DigitNotSpace(c: char)
    requires IsDigit(c)
    ensures !IsSpace(c)
  {
  }

  /** A plain run of digits carries no sign and reads as its decimal value. */
  lemma ParseIntOfDigits(s: string)
    requires s != [] && AllDigits(s)
    ensures ParseInt(s) == Some(DigitsValue(s) as int)
  {
    StripOfDigits(s);
    assert IsDigit(s[0]);
    assert IntDigits(s);
    DropUnderscoresOfDigits(s);
  }

  /** Reading the decimal rendering of `n` back gives `n`. */
  lemma ParseIntOfNatToString(n: nat)
    ensures ParseInt(NatToString(n)) == Some(n)
  {
    ParseIntOfDigits(NatToString(n));
    DigitsValueOfNatToString(n);
  }

  /** The year check accepts exactly the years from 1900 to ten years ahead, and never the empty string. */
  lemma ValidYearRange(year: nat, currentYear: int)
    ensures ValidYear(NatToString(year), currentYear) <==> 1900 <= year <= currentYear + 10
    ensures !ValidYear("", currentYear)
  {
    ParseIntOfNatToString(year);
  }

  /** `validate_gpa`: absent, or between 0.0 and 4.0. */
  predicate ValidGpa(gpa: Option<real>)
  {
    gpa.None? || 0.0 <= gpa.value <= 4.0
  }

  /** Python's `a <= b` on strings: code-point lexicographic order. */
  predicate LexLe(a: string, b: string)
  {
    if a == [] then true
    else if b == [] then false
    else if a[0] != b[0] then a[0] < b[0]
    else LexLe(a[1..], b[1..])
  }


  // ---------------------------------------------------------------------------
  // Errors

  /** What is wrong with one field or one entry. */
  datatype Issue =
    | Required(field: string)
    | InvalidEmail
    | InvalidPhone
    | InvalidUrl(field: string)
    | InvalidDate(field: string)
    | EndNotAfterStart
    | NoResponsibilities
    | BlankResponsibility
    | InvalidYear
    | InvalidGpa
    | NoTechnologies
    | BadProficiency

  datatype Section = WorkSection | EducationSection | CertificationSection | ProjectSection | LanguageSection

  /**
   * One message of a validator: an issue of the personal information, an
   * issue of entry `entry` (1-based) of a list section, or a skills problem
   * named by its category.
   */
  datatype ValidationError =
    | PersonalError(issue: Issue)
    | EntryError(section: Section, entry: nat, issue: Issue)
    | SkillsNotDict
    | SkillsNotList(category: string)
    | SkillsBlankSkill(category: string)

  /** `[f"{name} is required" for name, value in fields if not value]`. */
  function MissingFields(fields: seq<(string, bool)>): (issues: seq<Issue>)
    ensures |issues| <= |fields|
    ensures forall i :: 0 <= i < |issues| ==> issues[i].Required?
  {
    if fields == [] then []
    else
      MissingFields(fields[..|fields| - 1])
      + (if fields[|fields| - 1].1 then [] else [Required(fields[|fields| - 1].0)])
  }

  function When(c: bool, issue: Issue): seq<Issue>
  {
    if c then [issue] else []
  }

  /** The messages of entry `k` of a section. */
  function Tagged(section: Section, k: nat, issues: seq<Issue>): (es: seq<ValidationError>)
    ensures |es| == |issues|
  {
    seq(|issues|, i requires 0 <= i < |issues| => EntryError(section, k, issues[i]))
  }

  /** A section's messages: each entry's issues in order, numbered from 1. */
  function SectionErrors<T>(section: Section, xs: seq<T>, check: T -> seq<Issue>): seq<ValidationError>
  {
    if xs == [] then []
    else SectionErrors(section, xs[..|xs| - 1], check) + Tagged(section, |xs|, check(xs[|xs| - 1]))
  }

  lemma TaggedMembership(section: Section, k: nat, issues: seq<Issue>, e: ValidationError)
    ensures e in Tagged(section, k, issues) <==> e.EntryError? && e.section == section && e.entry == k && e.issue in issues
  {
    var es := Tagged(section, k, issues);
    if e.EntryError? && e.section == section && e.entry == k && e.issue in issues {
      var i :| 0 <= i < |issues| && issues[i] == e.issue;
      assert es[i] == e;
    }
  }

  /**
   * A section reports issue `i` for entry `k` exactly when checking the
   * `k`-th entry finds `i`; it reports nothing else.
   */
  lemma {:induction false} SectionErrorsMembership<T>(section: Section, xs: seq<T>, check: T -> seq<Issue>, e: ValidationError)
    ensures e in SectionErrors(section, xs, check) <==>
      e.EntryError? && e.section == section && 1 <= e.entry <= |xs| && e.issue in check(xs[e.entry - 1])
  {
    if xs != [] {
      var init := xs[..|xs| - 1];
      SectionErrorsMembership(section, init, check, e);
      TaggedMembership(section, |xs|, check(xs[|xs| - 1]), e);
      if e.EntryError? && 1 <= e.entry <= |init| {
        assert xs[e.entry - 1] == init[e.entry - 1];
      }
    }
  }

  /** A section has no errors exactly when none of its entries has an issue. */
  lemma SectionErrorsEmpty<T>(section: Section, xs: seq<T>, check: T -> seq<Issue>)
    ensures SectionErrors(section, xs, check) == [] <==> forall k :: 0 <= k < |xs| ==> check(xs[k]) == []
  {
    if SectionErrors(section, xs, check) != [] {
      SectionErrorsMembership(section, xs, check, SectionErrors(section, xs, check)[0]);
    } else {
      forall k | 0 <= k < |xs| ensures check(xs[k]) == [] {
        if check(xs[k]) != [] {
          SectionErrorsMembership(section, xs, check, EntryError(section, k + 1, check(xs[k])[0]));
        }
      }
    }
  }

  /** The loop of every list-section validator. */
  method CollectSectionErrors<T>(section: Section, xs: seq<T>, check: T -> seq<Issue>) returns (errors: seq<ValidationError>)
    ensures errors == SectionErrors(section, xs, check)
  {
    errors := [];
    var i := 0;
    while i < |xs|
      invariant 0 <= i <= |xs|
      invariant errors == SectionErrors(section, xs[..i], check)
    {
      var issues := check(xs[i]);
      var j := 0;
      while j < |issues|
        invariant 0 <= j <= |issues|
        invariant errors == SectionErrors(section, xs[..i], check) + Tagged(section, i + 1, issues[..j])
      {
        errors := errors + [EntryError(section, i + 1, issues[j])];
        j := j + 1;
      }
      assert issues[..j] == issues;
      assert xs[..i + 1][..i] == xs[..i];
      i := i + 1;
    }
    assert xs[..i] == xs;
  }

  // ---------------------------------------------------------------------------
  // Section checks

  function PersonalIssues(p: PersonalInfo): seq<Issue>
  {
    MissingFields([("first_name", p.firstName != []), ("last_name", p.lastName != []),
                   ("email", p.email != []), ("phone", p.phone != [])])
    + When(p.email != [] && !ValidEmail(p.email), InvalidEmail)
    + When(p.phone != [] && !ValidPhone(p.phone), InvalidPhone)
    + When(p.linkedinUrl != [] && !ValidUrl(p.linkedinUrl), InvalidUrl("linkedin_url"))
    + When(p.portfolioUrl != [] && !ValidUrl(p.portfolioUrl), InvalidUrl("portfolio_url"))
    + When(p.githubUrl != [] && !ValidUrl(p.githubUrl), InvalidUrl("github_url"))
  }

  function PersonalErrors(p: PersonalInfo): (es: seq<ValidationError>)
    ensures |es| == |PersonalIssues(p)|
  {
    var issues := PersonalIssues(p);
    seq(|issues|, i requires 0 <= i < |issues| => PersonalError(issues[i]))
  }

  predicate AnyBlank(xs: seq<string>)
  {
    exists i | 0 <= i < |xs| :: Strip(xs[i]) == []
  }

  function JobIssues(job: WorkExperience): seq<Issue>
  {
    MissingFields([("job_title", job.jobTitle != []), ("company", job.company != []),
                   ("start_date", job.startDate != []), ("responsibilities", job.responsibilities != [])])
    + When(job.startDate != [] && !ValidDate(job.startDate), InvalidDate("start_date"))
    + When(job.endDate != [] && !ValidDate(job.endDate), InvalidDate("end_date"))
    + When(job.startDate != [] && job.endDate != [] && LexLe(job.endDate, job.startDate), EndNotAfterStart)
    + (if job.responsibilities == [] then [NoResponsibilities] else When(AnyBlank(job.responsibilities), BlankResponsibility))
  }

  function EducationIssues(edu: Education, currentYear: int): seq<Issue>
  {
    MissingFields([("degree", edu.degree != []), ("institution", edu.institution != []),
                   ("graduation_year", edu.graduationYear != [])])
    + When(edu.graduationYear != [] && !ValidYear(edu.graduationYear, currentYear), InvalidYear)
    + When(!ValidGpa(edu.gpa), InvalidGpa)
  }

  /** The education check for a given current year. */
  function EducationCheck(currentYear: int): Education -> seq<Issue>
  {
    edu => EducationIssues(edu, currentYear)
  }

  function CertificationIssues(cert: Certification): seq<Issue>
  {
    MissingFields([("name", cert.name != []), ("issuer", cert.issuer != []), ("issue_date", cert.issueDate != [])])
    + When(cert.issueDate != [] && !ValidDate(cert.issueDate), InvalidDate("issue_date"))
    + When(cert.expiryDate != [] && !ValidDate(cert.expiryDate), InvalidDate("expiry_date"))
    + When(cert.credentialUrl != [] && !ValidUrl(cert.credentialUrl), InvalidUrl("credential_url"))
  }

  function ProjectIssues(project: Project): seq<Issue>
  {
    MissingFields([("name", project.name != []), ("description", project.description != []),
                   ("technologies", project.technologies != [])])
    + When(project.technologies == [], NoTechnologies)
    + When(project.url != [] && !ValidUrl(project.url), InvalidUrl("url"))
    + When(project.githubUrl != [] && !ValidUrl(project.githubUrl), InvalidUrl("github_url"))
    + When(project.startDate != [] && !ValidDate(project.startDate), InvalidDate("start_date"))
    + When(project.endDate != [] && !ValidDate(project.endDate), InvalidDate("end_date"))
  }

  const Proficiencies: seq<string> := ["Basic", "Intermediate", "Advanced", "Native", "Fluent"]

  function LanguageIssues(lang: Language): seq<Issue>
  {
    When(lang.language == [], Required("language"))
    + (if lang.proficiency == [] then [Required("proficiency")]
       else When(lang.proficiency !in Proficiencies, BadProficiency))
  }

  /** The value found under `skills`: a dictionary of lists, or something else. */
  datatype SkillList = SkillList(items: seq<string>) | NotAList
  datatype RawSkills = SkillsDict(categories: seq<(string, SkillList)>) | NotADict

  function CategoryErrors(category: (string, SkillList)): seq<ValidationError>
  {
    match category.1
    case NotAList => [SkillsNotList(category.0)]
    case SkillList(items) => if AnyBlank(items) then [SkillsBlankSkill(category.0)] else []
  }

  function CategoriesErrors(categories: seq<(string, SkillList)>): seq<ValidationError>
  {
    if categories == [] then []
    else CategoriesErrors(categories[..|categories| - 1]) + CategoryErrors(categories[|categories| - 1])
  }

  function SkillsErrors(skills: RawSkills): seq<ValidationError>
  {
    match skills
    case NotADict => [SkillsNotDict]
    case SkillsDict(categories) => CategoriesErrors(categories)
  }

  /** The skills dictionary of a typed résumé. */
  function RawSkillsOf(skills: seq<SkillCategory>): (raw: RawSkills)
    ensures raw.SkillsDict? && |raw.categories| == |skills|
  {
    SkillsDict(seq(|skills|, i requires 0 <= i < |skills| => (skills[i].name, SkillList(skills[i].items))))
  }

  // ---------------------------------------------------------------------------
  // Section validators

  method ValidatePersonalInfo(p: PersonalInfo) returns (valid: bool, errors: seq<ValidationError>)
    ensures errors == PersonalErrors(p) && valid == (errors == [])
  {
    errors := PersonalErrors(p);
    valid := |errors| == 0;
  }

  method ValidateWorkExperience(work: seq<WorkExperience>) returns (valid: bool, errors: seq<ValidationError>)
    ensures errors == SectionErrors(WorkSection, work, JobIssues) && valid == (errors == [])
  {
    errors := CollectSectionErrors(WorkSection, work, JobIssues);
    valid := |errors| == 0;
  }

  method ValidateEducation(education: seq<Education>, currentYear: int) returns (valid: bool, errors: seq<ValidationError>)
    ensures errors == SectionErrors(EducationSection, education, EducationCheck(currentYear))
    ensures valid == (errors == [])
  {
    errors := CollectSectionErrors(EducationSection, education, EducationCheck(currentYear));
    valid := |errors| == 0;
  }

  method ValidateCertifications(certifications: seq<Certification>) returns (valid: bool, errors: seq<ValidationError>)
    ensures errors == SectionErrors(CertificationSection, certifications, CertificationIssues) && valid == (errors == [])
  {
    errors := CollectSectionErrors(CertificationSection, certifications, CertificationIssues);
    valid := |errors| == 0;
  }

  method ValidateProjects(projects: seq<Project>) returns (valid: bool, errors: seq<ValidationError>)
    ensures errors == SectionErrors(ProjectSection, projects, ProjectIssues) && valid == (errors == [])
  {
    errors := CollectSectionErrors(ProjectSection, projects, ProjectIssues);
    valid := |errors| == 0;
  }

  method ValidateLanguages(languages: seq<Language>) returns (valid: bool, errors: seq<ValidationError>)
    ensures errors == SectionErrors(LanguageSection, languages, LanguageIssues) && valid == (errors == [])
  {
    errors := CollectSectionErrors(LanguageSection, languages, LanguageIssues);
    valid := |errors| == 0;
  }

  method ValidateSkills(skills: RawSkills) returns (valid: bool, errors: seq<ValidationError>)
    ensures errors == SkillsErrors(skills) && valid == (errors == [])
    ensures skills.NotADict? ==> errors == [SkillsNotDict]
  {
    if skills.NotADict? {
      return false, [SkillsNotDict];
    }
    var categories := skills.categories;
    errors := [];
    var i := 0;
    while i < |categories|
      invariant 0 <= i <= |categories|
      invariant errors == CategoriesErrors(categories[..i])
    {
      errors := errors + CategoryErrors(categories[i]);
      assert categories[..i + 1][..i] == categories[..i];
      i := i + 1;
    }
    assert categories[..i] == categories;
    valid := |errors| == 0;
  }

  // ---------------------------------------------------------------------------
  // Properties of the section checks

  /**
   * The "end date must be after start date" error of job `k` is reported
   * exactly when both dates are given and the end date is not after the
   * start date in string order.
   */
  lemma EndNotAfterStartReported(work: seq<WorkExperience>, k: nat)
    requires k < |work|
    ensures EntryError(WorkSection, k + 1, EndNotAfterStart) in SectionErrors(WorkSection, work, JobIssues)
      <==> work[k].startDate != [] && work[k].endDate != [] && LexLe(work[k].endDate, work[k].startDate)
  {
    JobEndNotAfterStart(work[k]);
    SectionErrorsMembership(WorkSection, work, JobIssues, EntryError(WorkSection, k + 1, EndNotAfterStart));
  }

  lemma JobEndNotAfterStart(job: WorkExperience)
    ensures EndNotAfterStart in JobIssues(job)
      <==> job.startDate != [] && job.endDate != [] && LexLe(job.endDate, job.startDate)
  {
  }

  /**
   * A language's proficiency is rejected exactly when it is given and is not
   * one of Basic, Intermediate, Advanced, Native or Fluent.
   */
  lemma ProficiencyReported(languages: seq<Language>, k: nat)
    requires k < |languages|
    ensures EntryError(LanguageSection, k + 1, BadProficiency) in SectionErrors(LanguageSection, languages, LanguageIssues)
      <==> languages[k].proficiency != [] && languages[k].proficiency !in Proficiencies
  {
    SectionErrorsMembership(LanguageSection, languages, LanguageIssues, EntryError(LanguageSection, k + 1, BadProficiency));
  }

  /** An empty responsibility list is reported twice: as a missing field and by the "at least one" rule. */
  lemma NoResponsibilitiesReportedTwice(work: seq<WorkExperience>, k: nat)
    requires k < |work| && work[k].responsibilities == []
    ensures EntryError(WorkSection, k + 1, Required("responsibilities")) in SectionErrors(WorkSection, work, JobIssues)
    ensures EntryError(WorkSection, k + 1, NoResponsibilities) in SectionErrors(WorkSection, work, JobIssues)
  {
    var job := work[k];
    var fields := [("job_title", job.jobTitle != []), ("company", job.company != []),
                   ("start_date", job.startDate != []), ("responsibilities", job.responsibilities != [])];
    assert fields[..|fields| - 1] == fields[..3];
    assert Required("responsibilities") in MissingFields(fields);
    SectionErrorsMembership(WorkSection, work, JobIssues, EntryError(WorkSection, k + 1, Required("responsibilities")));
    SectionErrorsMembership(WorkSection, work, JobIssues, EntryError(WorkSection, k + 1, NoResponsibilities));
  }

  /** A project without technologies is reported twice, like a job without responsibilities. */
  lemma NoTechnologiesReportedTwice(projects: seq<Project>, k: nat)
    requires k < |projects| && projects[k].technologies == []
    ensures EntryError(ProjectSection, k + 1, Required("technologies")) in SectionErrors(ProjectSection, projects, ProjectIssues)
    ensures EntryError(ProjectSection, k + 1, NoTechnologies) in SectionErrors(ProjectSection, projects, ProjectIssues)
  {
    var project := projects[k];
    var fields := [("name", project.name != []), ("description", project.description != []),
                   ("technologies", project.technologies != [])];
    assert fields[..|fields| - 1] == fields[..2];
    assert Required("technologies") in MissingFields(fields);
    SectionErrorsMembership(ProjectSection, projects, ProjectIssues, EntryError(ProjectSection, k + 1, Required("technologies")));
    SectionErrorsMembership(ProjectSection, projects, ProjectIssues, EntryError(ProjectSection, k + 1, NoTechnologies));
  }

  /** A skills error comes from one of the categories. */
  lemma {:induction false} CategoriesErrorsMembership(categories: seq<(string, SkillList)>, e: ValidationError)
    ensures e in CategoriesErrors(categories) <==> exists k :: 0 <= k < |categories| && e in CategoryErrors(categories[k])
  {
    if categories != [] {
      var init := categories[..|categories| - 1];
      CategoriesErrorsMembership(init, e);
      if exists k :: 0 <= k < |categories| && e in CategoryErrors(categories[k]) {
        var k :| 0 <= k < |categories| && e in CategoryErrors(categories[k]);
        if k < |init| { assert categories[k] == init[k]; }
      }
      if exists k :: 0 <= k < |init| && e in CategoryErrors(init[k]) {
        var k :| 0 <= k < |init| && e in CategoryErrors(init[k]);
        assert categories[k] == init[k];
      }
    }
  }

  /** A category is flagged as blank exactly when one of its skills is blank once stripped. */
  lemma BlankSkillReported(categories: seq<(string, SkillList)>, k: nat)
    requires k < |categories| && categories[k].1.SkillList?
    requires forall j :: 0 <= j < |categories| && j != k ==> categories[j].0 != categories[k].0
    ensures SkillsBlankSkill(categories[k].0) in SkillsErrors(SkillsDict(categories)) <==> AnyBlank(categories[k].1.items)
  {
    CategoriesErrorsMembership(categories, SkillsBlankSkill(categories[k].0));
  }

  // ---------------------------------------------------------------------------
  // The whole résumé

  function OptionalSectionErrors<T>(section: Section, xs: seq<T>, check: T -> seq<Issue>): seq<ValidationError>
  {
    if xs != [] then SectionErrors(section, xs, check) else []
  }

  /**
   * `validate_resume_content`: personal information, work, education and
   * skills always; certifications, projects and languages only when present;
   * the errors in that order.
   */
  function ContentErrors(r: ResumeContent, currentYear: int): seq<ValidationError>
  {
    PersonalErrors(Personal(r))
    + SectionErrors(WorkSection, r.workExperience, JobIssues)
    + SectionErrors(EducationSection, r.education, EducationCheck(currentYear))
    + SkillsErrors(RawSkillsOf(r.skills))
    + OptionalSectionErrors(CertificationSection, r.certifications, CertificationIssues)
    + OptionalSectionErrors(ProjectSection, r.projects, ProjectIssues)
    + OptionalSectionErrors(LanguageSection, r.languages, LanguageIssues)
  }

  /**
   * Skipping an empty optional section changes nothing, since an empty
   * section has no errors; the résumé is valid exactly when every one of the
   * seven section validators accepts its section.
   */
  lemma ContentErrorsUnguarded(r: ResumeContent, currentYear: int)
    ensures ContentErrors(r, currentYear)
      == PersonalErrors(Personal(r))
      + SectionErrors(WorkSection, r.workExperience, JobIssues)
      + SectionErrors(EducationSection, r.education, EducationCheck(currentYear))
      + SkillsErrors(RawSkillsOf(r.skills))
      + SectionErrors(CertificationSection, r.certifications, CertificationIssues)
      + SectionErrors(ProjectSection, r.projects, ProjectIssues)
      + SectionErrors(LanguageSection, r.languages, LanguageIssues)
    ensures ContentErrors(r, currentYear) == [] <==>
      PersonalIssues(Personal(r)) == []
      && SectionErrors(WorkSection, r.workExperience, JobIssues) == []
      && SectionErrors(EducationSection, r.education, EducationCheck(currentYear)) == []
      && SkillsErrors(RawSkillsOf(r.skills)) == []
      && SectionErrors(CertificationSection, r.certifications, CertificationIssues) == []
      && SectionErrors(ProjectSection, r.projects, ProjectIssues) == []
      && SectionErrors(LanguageSection, r.languages, LanguageIssues) == []
  {
  }

  /** A résumé without personal information misses exactly its four required personal fields. */
  lemma MissingPersonalInfoErrors(r: ResumeContent)
    requires r.personalInfo.None?
    ensures PersonalErrors(Personal(r)) ==
      [PersonalError(Required("first_name")), PersonalError(Required("last_name")),
       PersonalError(Required("email")), PersonalError(Required("phone"))]
  {
    var fields := [("first_name", false), ("last_name", false), ("email", false), ("phone", false)];
    assert fields[..1][..0] == [] && fields[..2][..1] == fields[..1];
    assert fields[..3][..2] == fields[..2] && fields[..|fields| - 1] == fields[..3];
    assert MissingFields(fields[..1]) == [Required("first_name")];
    assert MissingFields(fields[..2]) == [Required("first_name"), Required("last_name")];
    assert MissingFields(fields[..3]) == [Required("first_name"), Required("last_name"), Required("email")];
    assert MissingFields(fields) == [Required("first_name"), Required("last_name"), Required("email"), Required("phone")];
    var p := Personal(r);
    assert p == NoPersonalInfo;
    assert [("first_name", p.firstName != []), ("last_name", p.lastName != []),
            ("email", p.email != []), ("phone", p.phone != [])] == fields;
    assert PersonalIssues(p) == MissingFields(fields) + [] + [] + [] + [] + [];
  }

  method ValidateResumeContent(r: ResumeContent, currentYear: int) returns (valid: bool, errors: seq<ValidationError>)
    ensures errors == ContentErrors(r, currentYear) && valid == (errors == [])
  {
    var ok, es := ValidatePersonalInfo(Personal(r));
    errors := es;
    ok, es := ValidateWorkExperience(r.workExperience);
    errors := errors + es;
    ok, es := ValidateEducation(r.education, currentYear);
    errors := errors + es;
    ok, es := ValidateSkills(RawSkillsOf(r.skills));
    errors := errors + es;
    var optional: seq<ValidationError> := [];
    if r.certifications != [] {
      ok, optional := ValidateCertifications(r.certifications);
    }
    errors := errors + optional;
    optional := [];
    if r.projects != [] {
      ok, optional := ValidateProjects(r.projects);
    }
    errors := errors + optional;
    optional := [];
    if r.languages != [] {
      ok, optional := ValidateLanguages(r.languages);
    }
    errors := errors + optional;
    valid := |errors| == 0;
  }
}
