/**
 * The text tests of the cover-letter validation: the phrase lists and the
 * regular expressions of `_contains_company_or_position`, `_contains_numbers`
 * and the passive-voice patterns, written out as predicates on positions.
 * A `re.search` succeeds exactly when some way of matching the pattern
 * exists, so each pattern becomes an existential over the places where its
 * pieces start and end.
 */
module CoverLetterPatterns {
  import opened Text

  /** How many of `terms` occur in `t`, as `sum(1 for w in terms if w in t)`. */
  function CountContained(t: string, terms: seq<string>): (n: nat)
    ensures n <= |terms|
  {
    if terms == [] then 0
    else CountContained(t, terms[..|terms| - 1]) + (if Contains(t, terms[|terms| - 1]) then 1 else 0)
  }

  /** `any(w in text.lower() for w in terms)`. */
  predicate ContainsAny(text: string, terms: seq<string>)
  {
    exists j | 0 <= j < |terms| :: Contains(Lower(text), terms[j])
  }

  /** A term is counted exactly when it occurs, so the count is positive exactly when some term occurs. */
  lemma {:induction false} CountContainedPositive(t: string, terms: seq<string>)
    ensures CountContained(t, terms) > 0 <==> exists j | 0 <= j < |terms| :: Contains(t, terms[j])
  {
    if terms != [] {
      var init := terms[..|terms| - 1];
      CountContainedPositive(t, init);
      if exists j | 0 <= j < |init| :: Contains(t, init[j]) {
        var j :| 0 <= j < |init| && Contains(t, init[j]);
        assert terms[j] == init[j];
      }
      if exists j | 0 <= j < |terms| :: Contains(t, terms[j]) {
        var j :| 0 <= j < |terms| && Contains(t, terms[j]);
        if j < |init| {
          assert init[j] == terms[j];
        }
      }
    }
  }

  /** A longer text that keeps every occurrence of the shorter one counts at least as many terms. */
  lemma {:induction false} CountContainedMonotone(t1: string, t2: string, terms: seq<string>)
    requires forall w :: Contains(t1, w) ==> Contains(t2, w)
    ensures CountContained(t1, terms) <= CountContained(t2, terms)
  {
    if terms != [] {
      CountContainedMonotone(t1, t2, terms[..|terms| - 1]);
    }
  }

  /** Whatever occurs in `a` also occurs in `a + b`. */
  lemma ContainsExtend(a: string, b: string, w: string)
    requires Contains(a, w)
    ensures Contains(a + b, w)
  {
    var i :| 0 <= i <= |a| - |w| && OccursAt(a, w, i);
    assert (a + b)[i..i + |w|] == a[i..i + |w|];
    assert OccursAt(a + b, w, i);
  }

  /** Lower-casing distributes over concatenation. */
  lemma LowerAppend(a: string, b: string)
    ensures Lower(a + b) == Lower(a) + Lower(b)
  {
  }

  // ---------------------------------------------------------------------------
  // Phrase lists

  const WeakPhrases: seq<string> := [
    "to whom it may concern", "i am writing to apply", "please consider my application",
    "i would like to apply", "dear sir or madam", "i hope this letter finds you well"]

  const PowerWords: seq<string> := [
    "achieved", "accomplished", "advanced", "built", "created", "delivered",
    "developed", "enhanced", "exceeded", "expanded", "generated", "improved",
    "increased", "influenced", "initiated", "launched", "led", "managed",
    "optimized", "pioneered", "produced", "streamlined", "strengthened"]

  const ExampleIndicators: seq<string> := [
    "for example", "for instance", "specifically", "in particular",
    "during my time", "while working", "in my role", "as a result",
    "led to", "resulted in", "achieved", "accomplished", "implemented",
    "developed", "created", "managed", "improved", "increased"]

  const CallToActionPhrases: seq<string> := [
    "look forward to hearing", "would welcome the opportunity", "would love to discuss",
    "eager to discuss", "excited to learn more", "hope to hear from you",
    "thank you for your consideration", "please contact me",
    "would be happy to provide", "available for an interview"]

  /** `_contains_specific_examples`. */
  predicate ContainsSpecificExamples(text: string) { ContainsAny(text, ExampleIndicators) }

  /** `_contains_call_to_action`. */
  predicate ContainsCallToAction(text: string) { ContainsAny(text, CallToActionPhrases) }

  // ---------------------------------------------------------------------------
  // Pieces of the regular expressions

  /** `\s+` spans exactly `s[j..k]`. */
  predicate SpaceRun(s: string, j: int, k: int)
  {
    0 <= j < k <= |s| && forall t | j <= t < k :: IsSpace(s[t])
  }

  /** `\s*` spans exactly `s[j..k]`. */
  predicate OptionalSpaceRun(s: string, j: int, k: int)
  {
    0 <= j <= k <= |s| && forall t | j <= t < k :: IsSpace(s[t])
  }

  /** `\w+` spans exactly `s[j..k]`. */
  predicate WordRun(s: string, j: int, k: int)
  {
    0 <= j < k <= |s| && forall t | j <= t < k :: IsWordChar(s[t])
  }

  /** `\d+` spans exactly `s[i..j]`. */
  predicate DigitRun(s: string, i: int, j: int)
  {
    0 <= i < j <= |s| && forall t | i <= t < j :: IsDigit(s[t])
  }

  /**
   * `[A-Z][a-zA-Z\s]+` spans exactly `s[k..m]`; with `ampersand` the class
   * after the capital also holds `&`.
   */
  predicate CapitalisedRun(s: string, k: int, m: int, ampersand: bool)
  {
    0 <= k && k + 2 <= m <= |s| && IsUpper(s[k])
    && forall t | k < t < m :: IsLetter(s[t]) || IsSpace(s[t]) || (ampersand && s[t] == '&')
  }

  /** One of the alternatives `words` spans exactly `s[i..j]`. */
  predicate OneOfAt(s: string, words: seq<string>, i: int, j: int)
  {
    exists w | w in words :: |w| == j - i && OccursAt(s, w, i)
  }

  /** `\b` at `i`, also for positions outside the string (where it never holds). */
  predicate Boundary(s: string, i: int)
  {
    0 <= i <= |s| && WordBoundary(s, i)
  }

  // ---------------------------------------------------------------------------
  // `_contains_company_or_position`

  const Prepositions: seq<string> := ["at", "with", "for"]
  const CompanySuffixes: seq<string> := ["Inc", "LLC", "Corp", "Company", "Technologies", "Solutions"]
  const RoleNouns: seq<string> := ["position", "role", "job"]
  const RoleLinks: seq<string> := ["of", "as"]
  const TitleWords: seq<string> := ["Engineer", "Manager", "Developer", "Analyst", "Specialist", "Coordinator"]

  /** `[A-Z][a-zA-Z\s&]+(?:Inc|LLC|Corp|Company|Technologies|Solutions)\b` from `k`. */
  predicate CompanyNameAt(s: string, k: int)
  {
    exists m, e | k + 2 <= m < e <= |s| :: CapitalisedRun(s, k, m, true) && OneOfAt(s, CompanySuffixes, m, e) && Boundary(s, e)
  }

  /** The first pattern, `\b(?:at|with|for)\s+` and a company name, matches at `i`. */
  predicate CompanyMentionAt(s: string, i: int)
  {
    Boundary(s, i) && exists j, k | i < j < k < |s| :: OneOfAt(s, Prepositions, i, j) && SpaceRun(s, j, k) && CompanyNameAt(s, k)
  }

  /** `[A-Z][a-zA-Z\s]+\b` from `m`. */
  predicate TitleRunAt(s: string, m: int)
  {
    exists e | m + 2 <= e <= |s| :: CapitalisedRun(s, m, e, false) && Boundary(s, e)
  }

  /** `(?:of|as)\s+` and a capitalised run, from `k`. */
  predicate RoleLinkAt(s: string, k: int)
  {
    exists l, m | k < l < m < |s| :: OneOfAt(s, RoleLinks, k, l) && SpaceRun(s, l, m) && TitleRunAt(s, m)
  }

  /** The second pattern, `\b(?:position|role|job)\s+(?:of|as)\s+[A-Z][a-zA-Z\s]+\b`, matches at `i`. */
  predicate RoleMentionAt(s: string, i: int)
  {
    Boundary(s, i) && exists j, k | i < j < k < |s| :: OneOfAt(s, RoleNouns, i, j) && SpaceRun(s, j, k) && RoleLinkAt(s, k)
  }

  /** The third pattern, `\b[A-Z][a-zA-Z\s]+(?:Engineer|Manager|...)\b`, matches at `i`. */
  predicate TitleMentionAt(s: string, i: int)
  {
    Boundary(s, i) && exists m, e | i + 2 <= m < e <= |s| :: CapitalisedRun(s, i, m, false) && OneOfAt(s, TitleWords, m, e) && Boundary(s, e)
  }

  /** `_contains_company_or_position`: one of the three case-sensitive patterns matches somewhere. */
  predicate ContainsCompanyOrPosition(s: string)
  {
    exists i | 0 <= i <= |s| :: CompanyMentionAt(s, i) || RoleMentionAt(s, i) || TitleMentionAt(s, i)
  }

  predicate HasUpper(s: string) { exists i | 0 <= i < |s| :: IsUpper(s[i]) }

  /** Every pattern needs a capital letter, so a text without one never mentions a company or position. */
  lemma MentionNeedsCapital(s: string)
    ensures ContainsCompanyOrPosition(s) ==> HasUpper(s)
  {
    if ContainsCompanyOrPosition(s) {
      var i :| 0 <= i <= |s| && (CompanyMentionAt(s, i) || RoleMentionAt(s, i) || TitleMentionAt(s, i));
      if CompanyMentionAt(s, i) {
        var j, k :| i < j < k < |s| && OneOfAt(s, Prepositions, i, j) && SpaceRun(s, j, k) && CompanyNameAt(s, k);
        var m, e :| k + 2 <= m < e <= |s| && CapitalisedRun(s, k, m, true) && OneOfAt(s, CompanySuffixes, m, e) && Boundary(s, e);
        assert IsUpper(s[k]);
      } else if RoleMentionAt(s, i) {
        var j, k :| i < j < k < |s| && OneOfAt(s, RoleNouns, i, j) && SpaceRun(s, j, k) && RoleLinkAt(s, k);
        var l, m :| k < l < m < |s| && OneOfAt(s, RoleLinks, k, l) && SpaceRun(s, l, m) && TitleRunAt(s, m);
        assert IsUpper(s[m]);
      } else {
        var m, e :| i + 2 <= m < e <= |s| && CapitalisedRun(s, i, m, false) && OneOfAt(s, TitleWords, m, e) && Boundary(s, e);
        assert IsUpper(s[i]);
      }
    }
  }

  // ---------------------------------------------------------------------------
  // `_contains_numbers`

  const Magnitudes: seq<string> := ["million", "thousand", "billion"]
  const Periods: seq<string> := ["year", "month", "week"]
  const Headcounts: seq<string> := ["people", "employees", "clients", "customers"]

  /** A unit word (`years?` needs only `year`) starts at `k` of the lower-cased text. */
  predicate UnitAt(lower: string, k: int)
  {
    exists w | w in Magnitudes + Periods + Headcounts :: OccursAt(lower, w, k)
  }

  /**
   * One of the six number patterns matches with its digits at `s[i..j]`:
   * `\d+%`, `\$\d+`, `\d+\s*(?:million|...)`, `\d+\s*(?:years?|...)`,
   * `\d+\s*(?:people|...)` (all three ignoring case) or `\b\d+\b`.
   */
  predicate NumberAt(s: string, i: int, j: int)
  {
    DigitRun(s, i, j)
    && ((j < |s| && s[j] == '%')
        || (i > 0 && s[i - 1] == '$')
        || (exists k | j <= k <= |s| :: OptionalSpaceRun(s, j, k) && UnitAt(Lower(s), k))
        || (Boundary(s, i) && Boundary(s, j)))
  }

  /** `_contains_numbers`. */
  predicate ContainsNumbers(s: string)
  {
    exists i, j | 0 <= i < j <= |s| :: NumberAt(s, i, j)
  }

  /** Every number pattern holds a digit. */
  lemma NumbersNeedDigit(s: string)
    ensures ContainsNumbers(s) ==> HasDigit(s)
  {
    if ContainsNumbers(s) {
      var i, j :| 0 <= i < j <= |s| && NumberAt(s, i, j);
      assert IsDigit(s[i]);
    }
  }

  /** A text made of digits only is a number (the `\b\d+\b` pattern). */
  lemma DigitStringIsNumber(s: string)
    ensures IsDigitString(s) ==> ContainsNumbers(s)
  {
    if IsDigitString(s) {
      assert NumberAt(s, 0, |s|);
    }
  }

  // ---------------------------------------------------------------------------
  // Passive voice

  const Auxiliaries: seq<string> := ["was", "were", "is", "are", "been"]

  /**
   * `\b<aux>\s+\w+ed\b`, ignoring case, matches at `i`: the auxiliary, some
   * space, and a whole `\w` word of three or more characters ending in "ed".
   */
  predicate PassiveAt(s: string, aux: string, i: int)
  {
    Boundary(s, i) && OccursAt(Lower(s), aux, i)
    && exists k, e | i + |aux| < k && k + 3 <= e <= |s| ::
         SpaceRun(s, i + |aux|, k) && WordRun(s, k, e) && Lower(s)[e - 2..e] == "ed" && Boundary(s, e)
  }

  /**
   * The number of start positions below `n` where the pattern for `aux`
   * matches. A match ends with a whole word that is not an auxiliary, so two
   * matches never overlap, and `re.findall` finds a match at every such start.
   */
  function PassiveMatchesBelow(s: string, aux: string, n: nat): (count: nat)
    ensures count <= n
  {
    if n == 0 then 0 else PassiveMatchesBelow(s, aux, n - 1) + (if PassiveAt(s, aux, n - 1) then 1 else 0)
  }

  /** `len(re.findall(r'\b<aux>\s+\w+ed\b', text, re.IGNORECASE))`. */
  function PassiveMatches(s: string, aux: string): nat
  {
    PassiveMatchesBelow(s, aux, |s|)
  }

  /** The passive-voice count: the matches of the five patterns, added up. */
  function PassiveCount(s: string): nat
  {
    PassiveMatches(s, "was") + PassiveMatches(s, "were") + PassiveMatches(s, "is")
    + PassiveMatches(s, "are") + PassiveMatches(s, "been")
  }

  /** Without any match start there is nothing to count. */
  lemma {:induction false} NoPassiveStartNoCount(s: string, aux: string, n: nat)
    requires forall i | 0 <= i < n :: !PassiveAt(s, aux, i)
    ensures PassiveMatchesBelow(s, aux, n) == 0
  {
    if n > 0 {
      NoPassiveStartNoCount(s, aux, n - 1);
    }
  }

  /** A passive match needs a word ending in "ed", so text without "ed" has no passive voice. */
  lemma PassiveNeedsEd(s: string, aux: string, i: int)
    ensures PassiveAt(s, aux, i) ==> Contains(Lower(s), "ed")
  {
    if PassiveAt(s, aux, i) {
      var k, e :| i + |aux| < k && k + 3 <= e <= |s| &&
        SpaceRun(s, i + |aux|, k) && WordRun(s, k, e) && Lower(s)[e - 2..e] == "ed" && Boundary(s, e);
      assert OccursAt(Lower(s), "ed", e - 2);
    }
  }
}
