/**
 * The keyword matcher: static dictionaries of technical terms, industry
 * keywords and skill priorities, and the extraction of keywords and skills
 * from free text.
 */
module Keywords {
  import opened Wrappers
  import opened Text
  import opened Basics

  const StopWords: set<string> := {
    "the", "a", "an", "and", "or", "but", "in", "on", "at", "to", "for",
    "of", "with", "by", "from", "up", "about", "into", "through", "during",
    "before", "after", "above", "below", "between", "among",
    "is", "was", "are", "were", "be", "been", "being", "have", "has", "had",
    "do", "does", "did", "will", "would", "could", "should", "may", "might",
    "can", "must", "shall", "this", "that", "these", "those", "i", "you",
    "he", "she", "it", "we", "they", "me", "him", "her", "us", "them" }

  // The technical dictionary, category by category, in the matcher's order.

  const ProgrammingLanguages: seq<string> := [
    "python", "java", "javascript", "typescript", "c++", "c#", "ruby", "php", "go", "rust",
    "swift", "kotlin", "scala", "r", "matlab", "sql", "html", "css", "dart", "perl"]
  const Frameworks: seq<string> := [
    "react", "angular", "vue", "django", "flask", "spring", "express", "nodejs", "laravel",
    "rails", "asp.net", "bootstrap", "jquery", "ember", "backbone", "next.js", "nuxt.js"]
  const Databases: seq<string> := [
    "mysql", "postgresql", "mongodb", "redis", "cassandra", "elasticsearch", "dynamodb",
    "oracle", "sqlite", "mariadb", "couchdb", "neo4j", "influxdb", "snowflake"]
  const CloudPlatforms: seq<string> := [
    "aws", "azure", "gcp", "google cloud", "amazon web services", "microsoft azure",
    "digitalocean", "heroku", "vercel", "netlify", "cloudflare", "oracle cloud"]
  const DevopsTools: seq<string> := [
    "docker", "kubernetes", "jenkins", "gitlab", "github", "terraform", "ansible",
    "chef", "puppet", "vagrant", "circleci", "travis ci", "bamboo", "octopus deploy"]
  const DataScience: seq<string> := [
    "machine learning", "artificial intelligence", "deep learning", "neural networks",
    "pandas", "numpy", "scikit-learn", "tensorflow", "pytorch", "keras", "spark",
    "hadoop", "tableau", "power bi", "excel", "statistics", "data analysis"]
  const Security: seq<string> := [
    "cybersecurity", "information security", "penetration testing", "vulnerability assessment",
    "encryption", "firewall", "antivirus", "malware", "phishing", "ssl", "tls", "oauth"]
  const Mobile: seq<string> := [
    "ios", "android", "react native", "flutter", "xamarin", "cordova", "phonegap",
    "swift", "objective-c", "java", "kotlin", "mobile development"]
  const Testing: seq<string> := [
    "unit testing", "integration testing", "automated testing", "selenium", "cypress",
    "jest", "mocha", "pytest", "junit", "testng", "cucumber", "postman"]

  /** Every technical term, in the order the extraction loop visits them. */
  const TechnicalTerms: seq<string> :=
    ProgrammingLanguages + Frameworks + Databases + CloudPlatforms + DevopsTools
    + DataScience + Security + Mobile + Testing

  const IndustryNames: seq<string> := [
    "technology", "healthcare", "finance", "marketing", "sales", "education",
    "manufacturing", "consulting"]

  /** The industry keyword table, keyed by lower-case industry name. */
  function IndustryTable(name: string): seq<string>
  {
    match name
    case "technology" => [
      "software development", "agile", "scrum", "devops", "microservices", "api", "rest",
      "graphql", "cloud computing", "serverless", "containerization", "ci/cd", "git",
      "version control", "code review", "technical documentation", "system architecture",
      "scalability", "performance optimization", "debugging", "troubleshooting"]
    case "healthcare" => [
      "patient care", "clinical experience", "medical records", "hipaa", "ehr", "emr",
      "healthcare", "nursing", "pharmacy", "radiology", "laboratory", "diagnosis",
      "treatment", "medication", "surgery", "rehabilitation", "telemedicine",
      "medical devices", "clinical trials", "healthcare administration"]
    case "finance" => [
      "financial analysis", "investment", "portfolio management", "risk management",
      "compliance", "audit", "accounting", "budgeting", "forecasting", "valuation",
      "derivatives", "securities", "banking", "insurance", "fintech", "blockchain",
      "cryptocurrency", "trading", "wealth management", "financial modeling"]
    case "marketing" => [
      "digital marketing", "seo", "sem", "social media", "content marketing", "email marketing",
      "ppc", "analytics", "conversion optimization", "brand management", "campaign management",
      "market research", "customer acquisition", "lead generation", "crm", "marketing automation"]
    case "sales" => [
      "sales development", "lead generation", "prospecting", "closing", "negotiation",
      "relationship building", "crm", "pipeline management", "quota attainment",
      "customer retention", "upselling", "cross-selling", "territory management",
      "account management", "sales forecasting", "sales training"]
    case "education" => [
      "curriculum development", "lesson planning", "classroom management", "student assessment",
      "educational technology", "learning management systems", "pedagogy", "instructional design",
      "differentiated instruction", "special education", "esl", "standardized testing",
      "parent communication", "professional development"]
    case "manufacturing" => [
      "lean manufacturing", "six sigma", "quality control", "supply chain", "inventory management",
      "production planning", "process improvement", "safety protocols", "equipment maintenance",
      "iso standards", "continuous improvement", "waste reduction", "efficiency optimization"]
    case "consulting" => [
      "client management", "project management", "stakeholder engagement", "business analysis",
      "process improvement", "change management", "strategic planning", "problem solving",
      "presentation skills", "client relations", "proposal writing", "requirement gathering"]
    case _ => []
  }

  /** Some industry's keyword list contains `phrase`. */
  predicate IsIndustryTerm(phrase: string)
  {
    exists name | name in IndustryNames :: phrase in IndustryTable(name)
  }

  /** `get_industry_keywords`: a case-insensitive lookup, empty for an empty or unknown industry. */
  function IndustryKeywords(industry: string): (r: seq<string>)
    ensures industry == [] ==> r == []
    ensures r != [] ==> Lower(industry) in IndustryNames
  {
    if industry == [] then [] else IndustryTable(Lower(industry))
  }

  /** Industry names that differ only in letter case give the same keywords. */
  lemma IndustryKeywordsIgnoreCase(a: string, b: string)
    requires EqualsIgnoreCase(a, b)
    ensures IndustryKeywords(a) == IndustryKeywords(b)
  {
    assert |a| == |Lower(a)| == |Lower(b)| == |b|;
  }

  datatype Priorities = Priorities(critical: seq<string>, important: seq<string>, niceToHave: seq<string>)

  const NoPriorities := Priorities([], [], [])

  /** `get_skill_priorities`: the three tiers of an industry, all empty for an empty or unknown one. */
  function SkillPriorities(industry: string): (p: Priorities)
    ensures Lower(industry) !in ["technology", "healthcare", "finance"] ==> p == NoPriorities
  {
    if industry == [] then NoPriorities
    else
      match Lower(industry)
      case "technology" => Priorities(
        ["programming", "software development", "problem solving", "debugging"],
        ["version control", "testing", "agile", "collaboration"],
        ["devops", "cloud", "machine learning", "mobile development"])
      case "healthcare" => Priorities(
        ["patient care", "clinical skills", "medical knowledge", "communication"],
        ["teamwork", "attention to detail", "empathy", "time management"],
        ["technology skills", "research", "leadership", "teaching"])
      case "finance" => Priorities(
        ["financial analysis", "excel", "analytical thinking", "attention to detail"],
        ["communication", "teamwork", "time management", "presentation skills"],
        ["programming", "data visualization", "project management", "leadership"])
      case _ => NoPriorities
  }

  /** The extra skills `get_industry_skills` adds before the industry keywords. */
  function BaseIndustrySkills(industryLower: string): seq<seq<string>>
  {
    if industryLower == "technology" then
      [ProgrammingLanguages, Frameworks, Databases, CloudPlatforms, DevopsTools]
    else if industryLower == "healthcare" then
      [["medical terminology", "patient care", "clinical documentation", "hipaa compliance"]]
    else if industryLower == "finance" then
      [["financial modeling", "excel", "bloomberg terminal", "risk analysis"]]
    else []
  }

  function Flatten(lists: seq<seq<string>>): seq<string>
  {
    if lists == [] then [] else Flatten(lists[..|lists| - 1]) + lists[|lists| - 1]
  }

  /** The skills of an industry: the set `get_industry_skills` turns into its result list. */
  function IndustrySkillSet(industry: string): set<string>
  {
    if industry == [] then {}
    else
      var all := Flatten(BaseIndustrySkills(Lower(industry))) + IndustryKeywords(industry);
      set k | k in all
  }

  /** `skills.extend(...)` over a list of lists. */
  method ExtendAll(start: seq<string>, lists: seq<seq<string>>) returns (out: seq<string>)
    ensures out == start + Flatten(lists)
  {
    out := start;
    var i := 0;
    while i < |lists|
      invariant 0 <= i <= |lists|
      invariant out == start + Flatten(lists[..i])
    {
      out := out + lists[i];
      assert lists[..i + 1][..i] == lists[..i];
      i := i + 1;
    }
    assert lists[..i] == lists;
  }

  /**
   * `get_industry_skills`: duplicate-free (a set), empty for an empty
   * industry, and holding every keyword of the industry.
   */
  method IndustrySkills(industry: string) returns (skills: set<string>)
    ensures skills == IndustrySkillSet(industry)
    ensures industry == [] ==> skills == {}
    ensures forall k :: k in IndustryKeywords(industry) ==> k in skills
  {
    if industry == [] {
      return {};
    }
    var list := ExtendAll([], BaseIndustrySkills(Lower(industry)));
    list := list + IndustryKeywords(industry);
    skills := set k | k in list;
  }

  // ---------------------------------------------------------------------------
  // Normalisation and keyword extraction

  /** `re.sub(r'[^\w\s-]', ' ', ...)` on one character. */
  function CleanChar(c: char): char
  {
    if IsWordChar(c) || IsSpace(c) || c == '-' then c else ' '
  }

  function Clean(s: string): (r: string)
    ensures |r| == |s| && forall i :: 0 <= i < |s| ==> r[i] == CleanChar(s[i])
  {
    seq(|s|, i requires 0 <= i < |s| => CleanChar(s[i]))
  }

  /**
   * The text `extract_keywords` searches: lower-cased, every character other
   * than a word character, whitespace or '-' replaced by a space, then
   * stripped with whitespace runs collapsed to one space.
   */
  function Normalize(text: string): string
  {
    Join(Words(Clean(Lower(text))), " ")
  }

  predicate LettersOrHyphen(w: string)
  {
    w != [] && forall i :: 0 <= i < |w| ==> IsLetter(w[i]) || w[i] == '-'
  }

  /** The test a single word passes to become a keyword. */
  predicate IsKeywordWord(w: string)
  {
    |w| > 2 && w !in StopWords && !IsDigitString(w) && LettersOrHyphen(w)
  }

  /** Start of the run of whitespace that ends just before position `k`. */
  function SpaceRunStart(s: string, k: int): (j: int)
    requires 0 <= k <= |s|
    ensures 0 <= j <= k
  {
    if k > 0 && IsSpace(s[k - 1]) then SpaceRunStart(s, k - 1) else k
  }

  /** End of the run of whitespace that starts at position `i`. */
  function SpaceRunEnd(s: string, i: int): (k: int)
    requires 0 <= i <= |s|
    ensures i <= k <= |s|
    decreases |s| - i
  {
    if i < |s| && IsSpace(s[i]) then SpaceRunEnd(s, i + 1) else i
  }

  /** One of `terms` occurs at `k` and ends at a word boundary: `(t1|t2|...)\b`. */
  predicate TermWithBoundaryAt(s: string, terms: seq<string>, k: int)
    requires 0 <= k <= |s|
  {
    terms != [] &&
    ((OccursAt(s, terms[0], k) && WordBoundary(s, k + |terms[0]|))
     || TermWithBoundaryAt(s, terms[1..], k))
  }

  /**
   * `\b\w+\s+(t1|t2|...)\b` matches with the alternative starting at `k`: the
   * whitespace before `k` is preceded by a word character (the `\w+` then
   * starts at the beginning of that character's word, where `\b` holds).
   */
  predicate WordThenTermAt(s: string, terms: seq<string>, k: int)
    requires 0 <= k <= |s|
  {
    var j := SpaceRunStart(s, k);
    0 < j < k && IsWordChar(s[j - 1]) && TermWithBoundaryAt(s, terms, k)
  }

  /** `re.search` of `\b\w+\s+(t1|t2|...)\b` at some position from `k` on. */
  predicate WordThenTerm(s: string, terms: seq<string>, k: int)
    requires 0 <= k <= |s|
    decreases |s| - k
  {
    WordThenTermAt(s, terms, k) || (k < |s| && WordThenTerm(s, terms, k + 1))
  }

  /**
   * `\b(t1|t2|...)\s+\w+\b` matches starting at `i`: an alternative preceded by
   * a word boundary, then whitespace, then a word character (whose word ends
   * at a boundary).
   */
  predicate TermThenWordAt(s: string, terms: seq<string>, i: int)
    requires 0 <= i <= |s|
  {
    terms != [] &&
    ((OccursAt(s, terms[0], i) && WordBoundary(s, i) &&
      var e := i + |terms[0]|;
      var k := SpaceRunEnd(s, e);
      e < k < |s| && IsWordChar(s[k]))
     || TermThenWordAt(s, terms[1..], i))
  }

  /** `re.search` of `\b(t1|t2|...)\s+\w+\b` at some position from `i` on. */
  predicate TermThenWord(s: string, terms: seq<string>, i: int)
    requires 0 <= i <= |s|
    decreases |s| - i
  {
    TermThenWordAt(s, terms, i) || (i < |s| && TermThenWord(s, terms, i + 1))
  }

  /** `_is_relevant_phrase`: a dictionary phrase, or one of the three phrase patterns. */
  predicate IsRelevantPhrase(phrase: string)
  {
    phrase in TechnicalTerms
    || IsIndustryTerm(phrase)
    || WordThenTerm(phrase, ["development", "programming", "management", "analysis", "design"], 0)
    || TermThenWord(phrase, ["web", "mobile", "software", "data", "system"], 0)
    || WordThenTerm(phrase, ["engineer", "developer", "analyst", "manager", "specialist"], 0)
  }

  /** `f"{words[i]} {words[i + 1]}"`. */
  function Bigram(ws: seq<string>, i: int): string
    requires 0 <= i < |ws| - 1
  {
    Join(ws[i..i + 2], " ")
  }

  /** `f"{words[i]} {words[i + 1]} {words[i + 2]}"`. */
  function Trigram(ws: seq<string>, i: int): string
    requires 0 <= i < |ws| - 2
  {
    Join(ws[i..i + 3], " ")
  }

  function DictionaryHits(terms: seq<string>, norm: string): set<string>
  {
    set t | t in terms && Contains(norm, t)
  }

  function WordHits(ws: seq<string>): set<string>
  {
    set w | w in ws && IsKeywordWord(w)
  }

  function BigramHits(ws: seq<string>, n: int): set<string>
    requires n <= 0 || n <= |ws| - 1
  {
    set i | 0 <= i < n && IsRelevantPhrase(Bigram(ws, i)) :: Bigram(ws, i)
  }

  function TrigramHits(ws: seq<string>, n: int): set<string>
    requires n <= 0 || n <= |ws| - 2
  {
    set i | 0 <= i < n && IsRelevantPhrase(Trigram(ws, i)) :: Trigram(ws, i)
  }

  lemma BigramHitsStep(ws: seq<string>, i: int)
    requires 0 <= i < |ws| - 1
    ensures BigramHits(ws, i + 1) ==
      BigramHits(ws, i) + (if IsRelevantPhrase(Bigram(ws, i)) then {Bigram(ws, i)} else {})
  {
  }

  lemma TrigramHitsStep(ws: seq<string>, i: int)
    requires 0 <= i < |ws| - 2
    ensures TrigramHits(ws, i + 1) ==
      TrigramHits(ws, i) + (if IsRelevantPhrase(Trigram(ws, i)) then {Trigram(ws, i)} else {})
  {
  }

  /** The keywords of `text`: the set `extract_keywords` turns into its result list. */
  function KeywordSet(text: string): set<string>
  {
    if text == [] then {}
    else
      var norm := Normalize(text);
      var ws := Words(norm);
      DictionaryHits(TechnicalTerms, norm) + WordHits(ws)
      + BigramHits(ws, |ws| - 1) + TrigramHits(ws, |ws| - 2)
  }

  /** `extract_keywords`: the loops that fill the keyword set. */
  method ExtractKeywords(text: string) returns (keywords: set<string>)
    ensures keywords == KeywordSet(text)
    ensures text == [] ==> keywords == {}
    ensures forall k :: k in keywords ==> Contains(Normalize(text), k)
  {
    if text == [] {
      return {};
    }
    var norm := Normalize(text);
    var ws := Words(norm);
    var dict := AddDictionaryTerms({}, TechnicalTerms, norm);
    var singles := AddSingleWords(dict, ws);
    var pairs := AddBigrams(singles, ws);
    keywords := AddTrigrams(pairs, ws);
    KeywordsAreSubstrings(text);
  }

  lemma KeywordsAreSubstrings(text: string)
    ensures forall k | k in KeywordSet(text) :: Contains(Normalize(text), k)
  {
    forall k | k in KeywordSet(text) ensures Contains(Normalize(text), k) {
      KeywordIsSubstring(text, k);
    }
  }

  /** The dictionary loop: every technical term that is a substring of the text. */
  method AddDictionaryTerms(start: set<string>, terms: seq<string>, norm: string)
    returns (keywords: set<string>)
    ensures keywords == start + DictionaryHits(terms, norm)
  {
    keywords := start;
    var i := 0;
    while i < |terms|
      invariant 0 <= i <= |terms|
      invariant keywords == start + DictionaryHits(terms[..i], norm)
    {
      var term := terms[i];
      if Contains(norm, term) {
        keywords := keywords + {term};
      }
      assert terms[..i + 1] == terms[..i] + [term];
      i := i + 1;
    }
    assert terms[..i] == terms;
  }

  /** The single-word loop. */
  method AddSingleWords(start: set<string>, ws: seq<string>) returns (keywords: set<string>)
    ensures keywords == start + WordHits(ws)
  {
    keywords := start;
    var i := 0;
    while i < |ws|
      invariant 0 <= i <= |ws|
      invariant keywords == start + WordHits(ws[..i])
    {
      if IsKeywordWord(ws[i]) {
        keywords := keywords + {ws[i]};
      }
      assert ws[..i + 1] == ws[..i] + [ws[i]];
      i := i + 1;
    }
    assert ws[..i] == ws;
  }

  /** The bigram loop over `range(len(words) - 1)`. */
  method AddBigrams(start: set<string>, ws: seq<string>) returns (keywords: set<string>)
    ensures keywords == start + BigramHits(ws, |ws| - 1)
  {
    keywords := start;
    var i := 0;
    while i < |ws| - 1
      invariant 0 <= i <= if |ws| == 0 then 0 else |ws| - 1
      invariant keywords == start + BigramHits(ws, i)
    {
      var bigram := Join(ws[i..i + 2], " ");
      if IsRelevantPhrase(bigram) {
        keywords := keywords + {bigram};
      }
      BigramHitsStep(ws, i);
      i := i + 1;
    }
  }

  /** The trigram loop over `range(len(words) - 2)`. */
  method AddTrigrams(start: set<string>, ws: seq<string>) returns (keywords: set<string>)
    ensures keywords == start + TrigramHits(ws, |ws| - 2)
  {
    keywords := start;
    var i := 0;
    while i < |ws| - 2
      invariant 0 <= i <= if |ws| < 2 then 0 else |ws| - 2
      invariant keywords == start + TrigramHits(ws, i)
    {
      var trigram := Join(ws[i..i + 3], " ");
      if IsRelevantPhrase(trigram) {
        keywords := keywords + {trigram};
      }
      TrigramHitsStep(ws, i);
      i := i + 1;
    }
  }

  // ---------------------------------------------------------------------------
  // Skills named in a text

  /** The three soft-skill patterns, `\b(a1|a2|...)\b`, as their alternatives. */
  const SoftSkillPatterns: seq<seq<string>> := [
    ["communication", "leadership", "teamwork", "problem.solving", "analytical", "creative",
     "detail.oriented"],
    ["time.management", "project.management", "critical.thinking", "adaptability"],
    ["collaboration", "interpersonal", "presentation", "negotiation", "conflict.resolution"]]

  /** `alt` matches at `i`, each '.' of it standing for any character but a newline. */
  predicate AltMatchesAt(s: string, alt: string, i: int)
    requires 0 <= i <= |s|
  {
    i + |alt| <= |s| &&
    forall t :: 0 <= t < |alt| ==> if alt[t] == '.' then s[i + t] != '\n' else s[i + t] == alt[t]
  }

  /**
   * Length of the first alternative that matches at `i` and ends at a word
   * boundary (the regex engine tries the alternatives in order).
   */
  function AltMatch(s: string, alts: seq<string>, i: int): (r: Option<nat>)
    requires 0 <= i <= |s|
    ensures r.Some? ==> i + r.value <= |s|
  {
    if alts == [] then None
    else if AltMatchesAt(s, alts[0], i) && WordBoundary(s, i + |alts[0]|) then Some(|alts[0]|)
    else AltMatch(s, alts[1..], i)
  }

  /**
   * `re.findall(r'\b(a1|a2|...)\b', s)` from position `i`: scan left to right,
   * and after a match resume at its end.
   */
  function FindAll(s: string, alts: seq<string>, i: int): seq<string>
    requires 0 <= i <= |s|
    decreases |s| - i
  {
    if i == |s| then []
    else
      var m := if WordBoundary(s, i) then AltMatch(s, alts, i) else None;
      if m.Some? && m.value > 0 then [s[i..i + m.value]] + FindAll(s, alts, i + m.value)
      else FindAll(s, alts, i + 1)
  }

  /** Everything `findall` returns is a substring of the searched text. */
  lemma {:induction false} FindAllSubstrings(s: string, alts: seq<string>, i: int, k: string)
    requires 0 <= i <= |s| && k in FindAll(s, alts, i)
    ensures Contains(s, k)
    decreases |s| - i
  {
    if i < |s| {
      var m := if WordBoundary(s, i) then AltMatch(s, alts, i) else None;
      if m.Some? && m.value > 0 {
        if k == s[i..i + m.value] {
          assert OccursAt(s, k, i);
        } else {
          FindAllSubstrings(s, alts, i + m.value, k);
        }
      } else {
        FindAllSubstrings(s, alts, i + 1, k);
      }
    }
  }

  function SoftSkillHits(textLower: string, patterns: seq<seq<string>>): set<string>
  {
    if patterns == [] then {}
    else
      var found := FindAll(textLower, patterns[|patterns| - 1], 0);
      SoftSkillHits(textLower, patterns[..|patterns| - 1]) + (set k | k in found)
  }

  /**
   * The skills named in a text: technical terms occurring in the lower-cased
   * text (not normalised, so "c++" can be found here) and soft-skill pattern
   * matches.
   */
  function SkillsInText(text: string): set<string>
  {
    if text == [] then {}
    else DictionaryHits(TechnicalTerms, Lower(text)) + SoftSkillHits(Lower(text), SoftSkillPatterns)
  }

  /** `extract_skills_from_text`. */
  method ExtractSkillsFromText(text: string) returns (skills: set<string>)
    ensures skills == SkillsInText(text)
    ensures forall k :: k in skills ==> Contains(Lower(text), k)
  {
    if text == [] {
      return {};
    }
    var textLower := Lower(text);
    skills := AddDictionaryTerms({}, TechnicalTerms, textLower);
    ghost var dict := skills;
    var p := 0;
    while p < |SoftSkillPatterns|
      invariant 0 <= p <= |SoftSkillPatterns|
      invariant skills == dict + SoftSkillHits(textLower, SoftSkillPatterns[..p])
    {
      var matches := FindAll(textLower, SoftSkillPatterns[p], 0);
      skills := skills + set k | k in matches;
      assert SoftSkillPatterns[..p + 1][..p] == SoftSkillPatterns[..p];
      p := p + 1;
    }
    assert SoftSkillPatterns[..p] == SoftSkillPatterns;
    forall k | k in skills ensures Contains(textLower, k) {
      SkillInText(textLower, SoftSkillPatterns, k);
    }
  }

  lemma {:induction false} SkillInText(textLower: string, patterns: seq<seq<string>>, k: string)
    requires k in DictionaryHits(TechnicalTerms, textLower) + SoftSkillHits(textLower, patterns)
    ensures Contains(textLower, k)
  {
    if k !in DictionaryHits(TechnicalTerms, textLower) && patterns != [] {
      var last := patterns[|patterns| - 1];
      if k in FindAll(textLower, last, 0) {
        FindAllSubstrings(textLower, last, 0, k);
      } else {
        SkillInText(textLower, patterns[..|patterns| - 1], k);
      }
    }
  }

  // ---------------------------------------------------------------------------
  // Keyword density and improvement suggestions

  /** `sum(text_lower.count(kw.lower()) for kw in keywords)`. */
  function OccurrenceTotal(textLower: string, keywords: seq<string>): nat
  {
    if keywords == [] then 0
    else
      var last := Count(textLower, Lower(keywords[|keywords| - 1]));
      OccurrenceTotal(textLower, keywords[..|keywords| - 1]) + last
  }

  /** `calculate_keyword_density`, as a percentage of the text's word count. */
  function Density(text: string, keywords: seq<string>): real
  {
    if text == [] || keywords == [] then 0.0
    else
      var textLower := Lower(text);
      var total := WordCount(textLower);
      if total > 0 then OccurrenceTotal(textLower, keywords) as real / total as real * 100.0
      else 0.0
  }

  method KeywordDensity(text: string, keywords: seq<string>) returns (density: real)
    ensures density == Density(text, keywords)
    ensures text == [] || keywords == [] ==> density == 0.0
    ensures density >= 0.0
  {
    if text == [] || keywords == [] {
      return 0.0;
    }
    var textLower := Lower(text);
    var total := WordCount(textLower);
    var count := 0;
    var i := 0;
    while i < |keywords|
      invariant 0 <= i <= |keywords|
      invariant count == OccurrenceTotal(textLower, keywords[..i])
    {
      count := count + Count(textLower, Lower(keywords[i]));
      assert keywords[..i + 1][..i] == keywords[..i];
      i := i + 1;
    }
    assert keywords[..i] == keywords;
    density := if total > 0 then count as real / total as real * 100.0 else 0.0;
  }

  /** `set(kw.lower() for kw in keywords)`. */
  function LowerSet(keywords: seq<string>): set<string>
  {
    set k | k in keywords :: Lower(k)
  }

  lemma {:induction false} LowerSetSize(keywords: seq<string>)
    ensures |LowerSet(keywords)| <= |keywords|
  {
    if keywords != [] {
      var init := keywords[..|keywords| - 1];
      LowerSetSize(init);
      assert LowerSet(keywords) == LowerSet(init) + {Lower(keywords[|keywords| - 1])} by {
        forall k | k in keywords ensures k in init || k == keywords[|keywords| - 1] {
          var j :| 0 <= j < |keywords| && keywords[j] == k;
          if j < |init| { assert init[j] == k; }
        }
        forall k | k in init ensures k in keywords { }
      }
    }
  }

  datatype Priority = High | Medium | Low

  /** High: a language, framework or database; medium: a devops or testing tool; low: anything else. */
  function MissingPriority(keyword: string): Priority
  {
    TierOf(keyword, ProgrammingLanguages + Frameworks + Databases, DevopsTools + Testing)
  }

  function TierOf(keyword: string, highTier: seq<string>, mediumTier: seq<string>): Priority
  {
    if keyword in highTier then High
    else if keyword in mediumTier then Medium
    else Low
  }

  datatype KeywordSuggestions = KeywordSuggestions(
    missing: set<string>,
    present: set<string>,
    highPriority: set<string>,
    mediumPriority: set<string>,
    lowPriority: set<string>,
    matchPercentage: real)

  /** Sort the missing keywords into the three priority tiers. */
  method SplitByPriority(missing: set<string>, highTier: seq<string>, mediumTier: seq<string>)
    returns (high: set<string>, medium: set<string>, low: set<string>)
    ensures high + medium + low == missing
    ensures forall k :: k in high ==> TierOf(k, highTier, mediumTier) == High
    ensures forall k :: k in medium ==> TierOf(k, highTier, mediumTier) == Medium
    ensures forall k :: k in low ==> TierOf(k, highTier, mediumTier) == Low
  {
    high, medium, low := {}, {}, {};
    var rest := missing;
    while rest != {}
      invariant rest <= missing
      invariant forall k :: k in high || k in medium || k in low <==> k in missing && k !in rest
      invariant forall k :: k in high ==> TierOf(k, highTier, mediumTier) == High
      invariant forall k :: k in medium ==> TierOf(k, highTier, mediumTier) == Medium
      invariant forall k :: k in low ==> TierOf(k, highTier, mediumTier) == Low
      decreases |rest|
    {
      var k :| k in rest;
      var p := TierOf(k, highTier, mediumTier);
      if p == High {
        high := high + {k};
      } else if p == Medium {
        medium := medium + {k};
      } else {
        low := low + {k};
      }
      rest := rest - {k};
    }
    assert high + medium + low == missing;
  }

  /**
   * `suggest_keyword_improvements`: missing and present split the lower-cased
   * target set; the three priority tiers split the missing ones.
   */
  method SuggestKeywordImprovements(current: seq<string>, target: seq<string>)
    returns (r: KeywordSuggestions)
    ensures r.missing == LowerSet(target) - LowerSet(current)
    ensures r.present == LowerSet(target) * LowerSet(current)
    ensures r.highPriority + r.mediumPriority + r.lowPriority == r.missing
    ensures forall k :: k in r.highPriority ==> MissingPriority(k) == High
    ensures forall k :: k in r.mediumPriority ==> MissingPriority(k) == Medium
    ensures forall k :: k in r.lowPriority ==> MissingPriority(k) == Low
    ensures 0.0 <= r.matchPercentage <= 100.0
    ensures target == [] ==> r.matchPercentage == 0.0
    ensures target != [] ==> r.matchPercentage == |r.present| as real / |target| as real * 100.0
  {
    var currentSet := LowerSet(current);
    var targetSet := LowerSet(target);
    var missing := targetSet - currentSet;
    var present := targetSet * currentSet;
    var high, medium, low :=
      SplitByPriority(missing, ProgrammingLanguages + Frameworks + Databases, DevopsTools + Testing);
    var pct := 0.0;
    if target != [] {
      LowerSetSize(target);
      SubsetCardinality(present, targetSet);
      pct := |present| as real / |target| as real * 100.0;
    }
    r := KeywordSuggestions(missing, present, high, medium, low, pct);
  }

  // ---------------------------------------------------------------------------
  // Facts about the normalised text

  /** The words of a single-space join of tokens are the tokens themselves. */
  lemma {:induction false} WordsOfJoin(ws: seq<string>)
    requires forall w :: w in ws ==> IsToken(w)
    ensures Words(Join(ws, " ")) == ws
  {
    if |ws| == 1 {
      WordsOfToken(ws[0]);
    } else if |ws| > 1 {
      assert ws[0] in ws;
      assert forall w :: w in ws[1..] ==> w in ws;
      var rest := Join(ws[1..], " ");
      var s := ws[0] + " " + rest;
      assert Join(ws, " ") == s;
      assert s[0] == ws[0][0];
      assert TokenLength(s) == |ws[0]| by {
        assert s[|ws[0]|] == ' ';
        assert forall t :: 0 <= t < |ws[0]| ==> s[t] == ws[0][t];
      }
      assert s[..|ws[0]|] == ws[0];
      assert s[|ws[0]|..] == " " + rest;
      assert (" " + rest)[1..] == rest;
      WordsOfJoin(ws[1..]);
    }
  }

  lemma WordsOfToken(w: string)
    requires IsToken(w)
    ensures Words(w) == [w]
  {
    assert TokenLength(w) == |w|;
    assert w[..|w|] == w && w[|w|..] == [];
  }

  predicate CleanString(s: string)
  {
    forall i :: 0 <= i < |s| ==> IsWordChar(s[i]) || IsSpace(s[i]) || s[i] == '-'
  }

  predicate TokenChars(w: string)
  {
    forall i :: 0 <= i < |w| ==> IsWordChar(w[i]) || w[i] == '-'
  }

  /** Normalised text is made of word characters, '-' and single spaces. */
  predicate NormalChars(s: string)
  {
    forall i :: 0 <= i < |s| ==> IsWordChar(s[i]) || s[i] == '-' || s[i] == ' '
  }

  lemma {:induction false} WordsOfCleanString(s: string)
    requires CleanString(s)
    ensures forall w :: w in Words(s) ==> TokenChars(w)
    decreases |s|
  {
    if s != [] {
      if IsSpace(s[0]) {
        assert CleanString(s[1..]);
        WordsOfCleanString(s[1..]);
      } else {
        var k := TokenLength(s);
        assert CleanString(s[k..]);
        WordsOfCleanString(s[k..]);
        assert TokenChars(s[..k]);
        assert Words(s) == [s[..k]] + Words(s[k..]);
      }
    }
  }

  lemma {:induction false} JoinOfTokenChars(ws: seq<string>)
    requires forall w :: w in ws ==> TokenChars(w)
    ensures NormalChars(Join(ws, " "))
  {
    if |ws| == 1 {
      assert ws[0] in ws;
    } else if |ws| > 1 {
      assert ws[0] in ws;
      assert forall w :: w in ws[1..] ==> w in ws;
      JoinOfTokenChars(ws[1..]);
    }
  }

  lemma NormalizeChars(text: string)
    ensures NormalChars(Normalize(text))
    ensures forall w :: w in Words(Clean(Lower(text))) ==> IsToken(w)
  {
    var c := Clean(Lower(text));
    assert CleanString(c);
    WordsOfCleanString(c);
    JoinOfTokenChars(Words(c));
  }

  /** Splitting a join at an element boundary. */
  lemma {:induction false} JoinSplit(ws: seq<string>, i: int, sep: string)
    requires 0 < i < |ws|
    ensures Join(ws, sep) == Join(ws[..i], sep) + sep + Join(ws[i..], sep)
  {
    if i > 1 {
      JoinSplit(ws[1..], i - 1, sep);
      assert ws[1..][..i - 1] == ws[..i][1..];
      assert ws[1..][i - 1..] == ws[i..];
    }
  }

  /** The join of a window of consecutive elements starts the join of everything from the window on. */
  lemma JoinWindowStartsTail(ws: seq<string>, i: int, n: int, sep: string)
    requires 0 <= i && 0 < n && i + n <= |ws|
    ensures |Join(ws[i..i + n], sep)| <= |Join(ws[i..], sep)|
    ensures Join(ws[i..], sep)[..|Join(ws[i..i + n], sep)|] == Join(ws[i..i + n], sep)
  {
    if i + n < |ws| {
      JoinSplit(ws[i..], n, sep);
      assert ws[i..][..n] == ws[i..i + n];
    } else {
      assert ws[i..] == ws[i..i + n];
    }
  }

  /** A string that starts the back part of a concatenation occurs in it. */
  lemma StartOfBackOccurs(front: string, back: string, sub: string)
    requires |sub| <= |back| && back[..|sub|] == sub
    ensures Contains(front + back, sub)
  {
    assert (front + back)[|front|..|front| + |sub|] == back[..|sub|];
    assert OccursAt(front + back, sub, |front|);
  }

  /** The join of a window of consecutive elements occurs in the join of all of them. */
  lemma JoinWindow(ws: seq<string>, i: int, n: int, sep: string)
    requires 0 <= i && 0 < n && i + n <= |ws|
    ensures Contains(Join(ws, sep), Join(ws[i..i + n], sep))
  {
    JoinWindowStartsTail(ws, i, n, sep);
    if i == 0 {
      assert ws[i..] == ws;
      StartOfBackOccurs("", Join(ws, sep), Join(ws[i..i + n], sep));
      assert "" + Join(ws, sep) == Join(ws, sep);
    } else {
      JoinSplit(ws, i, sep);
      StartOfBackOccurs(Join(ws[..i], sep) + sep, Join(ws[i..], sep), Join(ws[i..i + n], sep));
      assert Join(ws, sep) == (Join(ws[..i], sep) + sep) + Join(ws[i..], sep);
    }
  }

  /** The words of the normalised text are the tokens it was joined from. */
  lemma NormalizedWords(text: string)
    ensures Normalize(text) == Join(Words(Normalize(text)), " ")
  {
    NormalizeChars(text);
    WordsOfJoin(Words(Clean(Lower(text))));
  }

  lemma WordHitInJoin(ws: seq<string>, k: string)
    requires k in WordHits(ws)
    ensures Contains(Join(ws, " "), k)
  {
    var i :| 0 <= i < |ws| && ws[i] == k;
    JoinWindow(ws, i, 1, " ");
    assert ws[i..i + 1] == [k];
  }

  lemma BigramOccurs(ws: seq<string>, i: int)
    requires 0 <= i < |ws| - 1
    ensures Contains(Join(ws, " "), Bigram(ws, i))
  {
    JoinWindow(ws, i, 2, " ");
  }

  lemma TrigramOccurs(ws: seq<string>, i: int)
    requires 0 <= i < |ws| - 2
    ensures Contains(Join(ws, " "), Trigram(ws, i))
  {
    JoinWindow(ws, i, 3, " ");
  }

  lemma BigramHitIndex(ws: seq<string>, n: int, k: string)
    requires n <= |ws| - 1 && k in BigramHits(ws, n)
    ensures exists i :: 0 <= i < n && k == Bigram(ws, i)
  {
  }

  lemma TrigramHitIndex(ws: seq<string>, n: int, k: string)
    requires n <= |ws| - 2 && k in TrigramHits(ws, n)
    ensures exists i :: 0 <= i < n && k == Trigram(ws, i)
  {
  }

  lemma BigramHitInJoin(ws: seq<string>, n: int, k: string)
    requires n <= |ws| - 1 && exists i :: 0 <= i < n && k == Bigram(ws, i)
    ensures Contains(Join(ws, " "), k)
  {
    var i :| 0 <= i < n && k == Bigram(ws, i);
    BigramOccurs(ws, i);
  }

  lemma TrigramHitInJoin(ws: seq<string>, n: int, k: string)
    requires n <= |ws| - 2 && exists i :: 0 <= i < n && k == Trigram(ws, i)
    ensures Contains(Join(ws, " "), k)
  {
    var i :| 0 <= i < n && k == Trigram(ws, i);
    TrigramOccurs(ws, i);
  }

  /** Every keyword is a substring of the normalised text. */
  lemma KeywordIsSubstring(text: string, k: string)
    requires k in KeywordSet(text)
    ensures Contains(Normalize(text), k)
  {
    var norm := Normalize(text);
    var ws := Words(norm);
    NormalizedWords(text);
    if k in WordHits(ws) {
      WordHitInJoin(ws, k);
    } else if k in BigramHits(ws, |ws| - 1) {
      BigramHitIndex(ws, |ws| - 1, k);
      BigramHitInJoin(ws, |ws| - 1, k);
    } else if k in TrigramHits(ws, |ws| - 2) {
      TrigramHitIndex(ws, |ws| - 2, k);
      TrigramHitInJoin(ws, |ws| - 2, k);
    }
  }

  /**
   * A dictionary term matches exactly when it is a substring of the normalised
   * text; so a term holding a character other than a word character, '-' or a
   * space ("c++", "c#", "asp.net", "next.js", "nuxt.js", "ci/cd") is never a
   * keyword of any text.
   */
  lemma KeywordsUseNormalChars(text: string, k: string)
    ensures k in KeywordSet(text) ==> NormalChars(k)
  {
    if k in KeywordSet(text) {
      KeywordIsSubstring(text, k);
      NormalizeChars(text);
      var norm := Normalize(text);
      var i :| 0 <= i <= |norm| - |k| && OccursAt(norm, k, i);
      assert forall t :: 0 <= t < |k| ==> k[t] == norm[i + t];
    }
  }

  /** The dictionary terms holding a character that normalisation replaces. */
  const UnmatchableTermList: seq<string> := ["c++", "c#", "asp.net", "next.js", "nuxt.js", "ci/cd"]

  lemma UnmatchableTerms(text: string, k: string)
    requires k in UnmatchableTermList
    ensures k !in KeywordSet(text)
  {
    assert !NormalChars(k) by {
      if k == "c++" || k == "c#" {
        assert k[1] in "+#";
      } else if k == "asp.net" {
        assert k[3] == '.';
      } else if k == "ci/cd" {
        assert k[2] == '/';
      } else {
        assert k[4] == '.';
      }
    }
    KeywordsUseNormalChars(text, k);
  }

  /**
   * A keyword that is not a dictionary term and has no space came from the
   * single-word rule: longer than 2, not a stop word, not all digits, and made
   * of ASCII letters and '-' only.
   */
  lemma SingleWordKeywordShape(text: string, k: string)
    requires k in KeywordSet(text) && k !in TechnicalTerms
    requires forall i :: 0 <= i < |k| ==> k[i] != ' '
    ensures IsKeywordWord(k)
  {
    var ws := Words(Normalize(text));
    NGramHitsHaveSpace(ws, k);
  }

  /** Bigrams and trigrams have a space right after their first word. */
  lemma NGramHitsHaveSpace(ws: seq<string>, k: string)
    ensures k in BigramHits(ws, |ws| - 1) || k in TrigramHits(ws, |ws| - 2) ==>
      exists i :: 0 <= i < |k| && k[i] == ' '
  {
    if k in BigramHits(ws, |ws| - 1) {
      var i :| 0 <= i < |ws| - 1 && k == Bigram(ws, i);
      assert ws[i..i + 2][0] == ws[i];
      assert k[|ws[i]|] == ' ';
    }
    if k in TrigramHits(ws, |ws| - 2) {
      var i :| 0 <= i < |ws| - 2 && k == Trigram(ws, i);
      assert ws[i..i + 3][0] == ws[i];
      assert k[|ws[i]|] == ' ';
    }
  }
}
