/**
 * `CoverLetterValidationService`: structure errors, the word-count band,
 * completeness, content and style recommendations, the overall score and the
 * tone classifiers of a cover letter's opening, body paragraphs and closing.
 */
module CoverLetterValidation {
  import opened Wrappers
  import opened Text
  import opened Basics
  import opened CoverLetterPatterns

  /** The three parts of the content the service reads; a missing part is "" or []. */
  datatype LetterContent = LetterContent(opening: string, bodies: seq<string>, closing: string)

  /** The validation errors, one constructor per message; body paragraphs are numbered from 1. */
  datatype LetterError =
    | OpeningRequired | OpeningTooShort
    | NoBodyParagraphs | BodyEmpty(paragraph: nat) | BodyTooShort(paragraph: nat)
    | ClosingRequired | ClosingTooShort
    | TooFewWords | TooManyWords

  const MinEndLength := 20
  const MinBodyLength := 30
  const MinWords := 100
  const MaxWords := 600
  const OptimalMin := 250
  const OptimalMax := 400
  const MaxParagraphWords := 150

  // ---------------------------------------------------------------------------
  // Structure

  /** The opening or closing check: required when blank, else too short under 20 stripped characters. */
  function EndParagraphErrors(s: string, required: LetterError, tooShort: LetterError): seq<LetterError>
  {
    if s == [] || Strip(s) == [] then [required]
    else if |Strip(s)| < MinEndLength then [tooShort]
    else []
  }

  /** The check of body paragraph number `n`. */
  function BodyErrors(p: string, n: nat): seq<LetterError>
  {
    if p == [] || Strip(p) == [] then [BodyEmpty(n)]
    else if |Strip(p)| < MinBodyLength then [BodyTooShort(n)]
    else []
  }

  function BodiesErrors(bodies: seq<string>): seq<LetterError>
  {
    if bodies == [] then []
    else BodiesErrors(bodies[..|bodies| - 1]) + BodyErrors(bodies[|bodies| - 1], |bodies|)
  }

  /** `_validate_structure`: opening, then the bodies, then the closing. */
  function StructureErrors(c: LetterContent): seq<LetterError>
  {
    EndParagraphErrors(c.opening, OpeningRequired, OpeningTooShort)
    + (if c.bodies == [] then [NoBodyParagraphs] else BodiesErrors(c.bodies))
    + EndParagraphErrors(c.closing, ClosingRequired, ClosingTooShort)
  }

  /** `_validate_structure`, paragraph by paragraph. */
  method ValidateStructure(c: LetterContent) returns (errors: seq<LetterError>)
    ensures errors == StructureErrors(c)
  {
    errors := EndParagraphErrors(c.opening, OpeningRequired, OpeningTooShort);
    if c.bodies == [] {
      errors := errors + [NoBodyParagraphs];
    } else {
      var i := 0;
      while i < |c.bodies|
        invariant 0 <= i <= |c.bodies|
        invariant errors == EndParagraphErrors(c.opening, OpeningRequired, OpeningTooShort) + BodiesErrors(c.bodies[..i])
      {
        BodiesErrorsStep(c.bodies, i);
        errors := errors + BodyErrors(c.bodies[i], i + 1);
        i := i + 1;
      }
      assert c.bodies[..i] == c.bodies;
    }
    errors := errors + EndParagraphErrors(c.closing, ClosingRequired, ClosingTooShort);
  }

  lemma BodiesErrorsStep(bodies: seq<string>, i: nat)
    requires i < |bodies|
    ensures BodiesErrors(bodies[..i + 1]) == BodiesErrors(bodies[..i]) + BodyErrors(bodies[i], i + 1)
  {
    assert bodies[..i + 1][..i] == bodies[..i];
  }

  /** Blank means the stripped paragraph is empty. */
  lemma BlankIffStripEmpty(s: string)
    ensures (s == [] || Strip(s) == []) <==> IsBlank(s)
  {
    StripEmptyIffBlank(s);
  }

  /** "Required" and "too short" of one end paragraph: each exactly under its condition, so never both. */
  lemma EndParagraphMeaning(s: string, required: LetterError, tooShort: LetterError, x: LetterError)
    requires required != tooShort
    ensures required in EndParagraphErrors(s, required, tooShort) <==> IsBlank(s)
    ensures tooShort in EndParagraphErrors(s, required, tooShort) <==> !IsBlank(s) && |Strip(s)| < MinEndLength
    ensures x in EndParagraphErrors(s, required, tooShort) ==> x == required || x == tooShort
  {
    BlankIffStripEmpty(s);
  }

  /** Only body errors come from the bodies. */
  lemma {:induction false} BodiesErrorsKinds(bodies: seq<string>)
    ensures OpeningRequired !in BodiesErrors(bodies) && OpeningTooShort !in BodiesErrors(bodies)
    ensures ClosingRequired !in BodiesErrors(bodies) && ClosingTooShort !in BodiesErrors(bodies)
    ensures NoBodyParagraphs !in BodiesErrors(bodies)
  {
    if bodies != [] {
      BodiesErrorsKinds(bodies[..|bodies| - 1]);
    }
  }

  /** Body paragraph `n` is reported empty exactly when blank, and too short exactly when under 30 characters. */
  lemma {:induction false} BodiesErrorsMeaning(bodies: seq<string>, n: nat)
    ensures BodyEmpty(n) in BodiesErrors(bodies) <==> 1 <= n <= |bodies| && IsBlank(bodies[n - 1])
    ensures BodyTooShort(n) in BodiesErrors(bodies) <==>
      1 <= n <= |bodies| && !IsBlank(bodies[n - 1]) && |Strip(bodies[n - 1])| < MinBodyLength
  {
    if bodies != [] {
      var init, last := bodies[..|bodies| - 1], bodies[|bodies| - 1];
      BodiesErrorsMeaning(init, n);
      BodyErrorsMeaning(last, |bodies|, n);
      if 1 <= n <= |init| {
        assert bodies[n - 1] == init[n - 1];
      }
    }
  }

  /** The check of one body paragraph reports only under its own number. */
  lemma BodyErrorsMeaning(p: string, k: nat, n: nat)
    ensures BodyEmpty(n) in BodyErrors(p, k) <==> n == k && IsBlank(p)
    ensures BodyTooShort(n) in BodyErrors(p, k) <==> n == k && !IsBlank(p) && |Strip(p)| < MinBodyLength
  {
    BlankIffStripEmpty(p);
  }

  /**
   * The end-paragraph errors: each of opening and closing is either required
   * (blank) or too short (under 20 stripped characters), never both, and a
   * letter without bodies gets one error for that.
   */
  lemma EndErrorsMeaning(c: LetterContent)
    ensures var errors := StructureErrors(c);
      (OpeningRequired in errors <==> IsBlank(c.opening))
      && (OpeningTooShort in errors <==> !IsBlank(c.opening) && |Strip(c.opening)| < MinEndLength)
      && (ClosingRequired in errors <==> IsBlank(c.closing))
      && (ClosingTooShort in errors <==> !IsBlank(c.closing) && |Strip(c.closing)| < MinEndLength)
      && (NoBodyParagraphs in errors <==> c.bodies == [])
  {
    var opening := EndParagraphErrors(c.opening, OpeningRequired, OpeningTooShort);
    var closing := EndParagraphErrors(c.closing, ClosingRequired, ClosingTooShort);
    var middle := if c.bodies == [] then [NoBodyParagraphs] else BodiesErrors(c.bodies);
    assert StructureErrors(c) == opening + middle + closing;
    EndParagraphMeaning(c.opening, OpeningRequired, OpeningTooShort, ClosingRequired);
    EndParagraphMeaning(c.opening, OpeningRequired, OpeningTooShort, ClosingTooShort);
    EndParagraphMeaning(c.opening, OpeningRequired, OpeningTooShort, NoBodyParagraphs);
    EndParagraphMeaning(c.closing, ClosingRequired, ClosingTooShort, OpeningRequired);
    EndParagraphMeaning(c.closing, ClosingRequired, ClosingTooShort, OpeningTooShort);
    EndParagraphMeaning(c.closing, ClosingRequired, ClosingTooShort, NoBodyParagraphs);
    BodiesErrorsKinds(c.bodies);
  }

  /** Body paragraph `n` is reported empty exactly when blank, and too short exactly when under 30 stripped characters. */
  lemma BodyErrorsReported(c: LetterContent, n: nat)
    ensures BodyEmpty(n) in StructureErrors(c) <==> 1 <= n <= |c.bodies| && IsBlank(c.bodies[n - 1])
    ensures BodyTooShort(n) in StructureErrors(c) <==>
      1 <= n <= |c.bodies| && !IsBlank(c.bodies[n - 1]) && |Strip(c.bodies[n - 1])| < MinBodyLength
  {
    var opening := EndParagraphErrors(c.opening, OpeningRequired, OpeningTooShort);
    var closing := EndParagraphErrors(c.closing, ClosingRequired, ClosingTooShort);
    var middle := if c.bodies == [] then [NoBodyParagraphs] else BodiesErrors(c.bodies);
    assert StructureErrors(c) == opening + middle + closing;
    BodiesErrorsMeaning(c.bodies, n);
    EndParagraphMeaning(c.opening, OpeningRequired, OpeningTooShort, BodyEmpty(n));
    EndParagraphMeaning(c.closing, ClosingRequired, ClosingTooShort, BodyEmpty(n));
    EndParagraphMeaning(c.opening, OpeningRequired, OpeningTooShort, BodyTooShort(n));
    EndParagraphMeaning(c.closing, ClosingRequired, ClosingTooShort, BodyTooShort(n));
  }

  // ---------------------------------------------------------------------------
  // Word count

  /** `len(p.split())` for a present paragraph, nothing for an empty one. */
  function ParagraphWords(p: string): nat
  {
    if p != [] then WordCount(p) else 0
  }

  function BodiesWords(bodies: seq<string>): nat
  {
    if bodies == [] then 0 else BodiesWords(bodies[..|bodies| - 1]) + ParagraphWords(bodies[|bodies| - 1])
  }

  /** `_calculate_word_count`: the words of the opening, every body and the closing. */
  function TotalWords(c: LetterContent): nat
  {
    ParagraphWords(c.opening) + BodiesWords(c.bodies) + ParagraphWords(c.closing)
  }

  /** `_calculate_word_count`, adding paragraph by paragraph. */
  method CalculateWordCount(c: LetterContent) returns (total: nat)
    ensures total == TotalWords(c)
  {
    total := 0;
    if c.opening != [] {
      total := total + WordCount(c.opening);
    }
    var i := 0;
    while i < |c.bodies|
      invariant 0 <= i <= |c.bodies|
      invariant total == ParagraphWords(c.opening) + BodiesWords(c.bodies[..i])
    {
      if c.bodies[i] != [] {
        total := total + WordCount(c.bodies[i]);
      }
      assert c.bodies[..i + 1][..i] == c.bodies[..i];
      i := i + 1;
    }
    assert c.bodies[..i] == c.bodies;
    if c.closing != [] {
      total := total + WordCount(c.closing);
    }
  }

  lemma ParagraphWordsZero(p: string)
    ensures ParagraphWords(p) == 0 <==> IsBlank(p)
  {
    NoWordsIffBlank(p);
  }

  lemma {:induction false} BodiesWordsZero(bodies: seq<string>)
    ensures BodiesWords(bodies) == 0 <==> forall k | 0 <= k < |bodies| :: IsBlank(bodies[k])
  {
    if bodies != [] {
      var init := bodies[..|bodies| - 1];
      BodiesWordsZero(init);
      ParagraphWordsZero(bodies[|bodies| - 1]);
      assert forall k | 0 <= k < |init| :: init[k] == bodies[k];
    }
  }

  /** A letter has no words exactly when every paragraph of it is blank. */
  lemma NoWordsIffAllBlank(c: LetterContent)
    ensures TotalWords(c) == 0 <==>
      IsBlank(c.opening) && IsBlank(c.closing) && forall k | 0 <= k < |c.bodies| :: IsBlank(c.bodies[k])
  {
    ParagraphWordsZero(c.opening);
    ParagraphWordsZero(c.closing);
    BodiesWordsZero(c.bodies);
  }

  /** `_validate_word_count`: at most one error, too short under 100 words, too long over 600. */
  function WordCountErrors(n: nat): (errors: seq<LetterError>)
    ensures |errors| <= 1
    ensures TooFewWords in errors <==> n < MinWords
    ensures TooManyWords in errors <==> n > MaxWords
    ensures errors == [] <==> MinWords <= n <= MaxWords
  {
    if n < MinWords then [TooFewWords] else if n > MaxWords then [TooManyWords] else []
  }

  // ---------------------------------------------------------------------------
  // Completeness

  predicate HasOpening(c: LetterContent) { c.opening != [] && Strip(c.opening) != [] }
  predicate HasBody(c: LetterContent) { c.bodies != [] && exists k | 0 <= k < |c.bodies| :: Strip(c.bodies[k]) != [] }
  predicate HasClosing(c: LetterContent) { c.closing != [] && Strip(c.closing) != [] }
  predicate SufficientLength(c: LetterContent) { TotalWords(c) >= 200 }

  function CompletedParts(c: LetterContent): nat
  {
    (if HasOpening(c) then 1 else 0) + (if HasBody(c) then 1 else 0)
    + (if HasClosing(c) then 1 else 0) + (if SufficientLength(c) then 1 else 0)
  }

  /**
   * `_calculate_completeness`: a quarter for each of opening, a non-blank body,
   * closing and at least 200 words; `int(c / 4 * 100)` is exact for c in 0..4.
   */
  function Completeness(c: LetterContent): (p: int)
    ensures p in {0, 25, 50, 75, 100}
    ensures p == 100 <==> HasOpening(c) && HasBody(c) && HasClosing(c) && SufficientLength(c)
    ensures p == 0 <==> !HasOpening(c) && !HasBody(c) && !HasClosing(c) && !SufficientLength(c)
  {
    var n := CompletedParts(c);
    assert n * 100 / 4 == 25 * n;
    n * 100 / 4
  }

  /** A blank letter is 0% complete. */
  lemma BlankLetterIncomplete(c: LetterContent)
    requires IsBlank(c.opening) && IsBlank(c.closing) && forall k | 0 <= k < |c.bodies| :: IsBlank(c.bodies[k])
    ensures Completeness(c) == 0
  {
    NoWordsIffAllBlank(c);
    StripEmptyIffBlank(c.opening);
    StripEmptyIffBlank(c.closing);
    forall k | 0 <= k < |c.bodies|
      ensures Strip(c.bodies[k]) == []
    {
      StripEmptyIffBlank(c.bodies[k]);
    }
  }

  // ---------------------------------------------------------------------------
  // Recommendations

  /** The recommendations, one constructor per message; the textstat readability advice is not modelled. */
  datatype Advice =
    | ExpandLetter | CondenseLetter
    | ReplaceWeakPhrase(phrase: string) | MentionCompanyAndPosition
    | IncludeExamples | AddQuantifiableResults | AddCallToAction
    | UsePowerWords | ReducePassiveVoice
    | BreakUpParagraphs(paragraphs: seq<nat>)
    | VaryVocabulary(words: seq<string>)

  /** The first phrase of `phrases`, in list order, that occurs in `t`. */
  function FirstContained(t: string, phrases: seq<string>): (r: Option<string>)
    ensures r.None? <==> forall j | 0 <= j < |phrases| :: !Contains(t, phrases[j])
    ensures r.Some? ==> exists j | 0 <= j < |phrases| ::
      (phrases[j] == r.value && Contains(t, r.value) && forall k | 0 <= k < j :: !Contains(t, phrases[k]))
  {
    if phrases == [] then None
    else if Contains(t, phrases[0]) then Some(phrases[0])
    else
      var r := FirstContained(t, phrases[1..]);
      assert forall j | 0 <= j < |phrases[1..]| :: phrases[1..][j] == phrases[j + 1];
      if r.Some? then
        var j :| 0 <= j < |phrases[1..]| && phrases[1..][j] == r.value && Contains(t, r.value)
          && forall k | 0 <= k < j :: !Contains(t, phrases[1..][k]);
        assert forall k | 0 <= k < j + 1 :: !Contains(t, phrases[k]) by {
          forall k | 0 <= k < j + 1
            ensures !Contains(t, phrases[k])
          {
            if k > 0 {
              assert phrases[k] == phrases[1..][k - 1];
            }
          }
        }
        r
      else r
  }

  /** The rule of the content or style generator an advice comes from, in the order they run. */
  function Rule(a: Advice): nat
  {
    match a
    case ExpandLetter | CondenseLetter => 0
    case ReplaceWeakPhrase(_) | MentionCompanyAndPosition => 1
    case IncludeExamples | AddQuantifiableResults => 2
    case AddCallToAction => 3
    case UsePowerWords | ReducePassiveVoice => 4
    case BreakUpParagraphs(_) => 5
    case VaryVocabulary(_) => 6
  }

  /** The length advice: expand under 250 words, condense over 400. */
  function LengthAdvice(wordCount: nat): (recs: seq<Advice>)
    ensures ExpandLetter in recs <==> wordCount < OptimalMin
    ensures CondenseLetter in recs <==> wordCount > OptimalMax
    ensures forall x | x in recs :: Rule(x) == 0
  {
    if wordCount < OptimalMin then [ExpandLetter] else if wordCount > OptimalMax then [CondenseLetter] else []
  }

  function WeakPhraseAdvice(opening: string): (recs: seq<Advice>)
    ensures forall x | x in recs :: Rule(x) == 1
    ensures forall p :: ReplaceWeakPhrase(p) in recs <==> FirstContained(Lower(opening), WeakPhrases) == Some(p)
  {
    match FirstContained(Lower(opening), WeakPhrases)
    case Some(p) => [ReplaceWeakPhrase(p)]
    case None => []
  }

  /** The opening advice: the first weak phrase, and a missing company or position mention. */
  function OpeningAdvice(opening: string): (recs: seq<Advice>)
    ensures MentionCompanyAndPosition in recs <==> opening != [] && !ContainsCompanyOrPosition(opening)
    ensures forall p :: ReplaceWeakPhrase(p) in recs <==> opening != [] && FirstContained(Lower(opening), WeakPhrases) == Some(p)
    ensures forall x | x in recs :: Rule(x) == 1
  {
    if opening == [] then []
    else WeakPhraseAdvice(opening) + (if ContainsCompanyOrPosition(opening) then [] else [MentionCompanyAndPosition])
  }

  predicate SomeBody(bodies: seq<string>, test: string -> bool)
  {
    exists k | 0 <= k < |bodies| :: test(bodies[k])
  }

  /** The body advice: no specific example, and no number, in any body. */
  function BodyAdvice(bodies: seq<string>): (recs: seq<Advice>)
    ensures IncludeExamples in recs <==> bodies != [] && !SomeBody(bodies, ContainsSpecificExamples)
    ensures AddQuantifiableResults in recs <==> bodies != [] && !SomeBody(bodies, ContainsNumbers)
    ensures forall x | x in recs :: Rule(x) == 2
  {
    if bodies == [] then []
    else
      (if SomeBody(bodies, ContainsSpecificExamples) then [] else [IncludeExamples])
      + (if SomeBody(bodies, ContainsNumbers) then [] else [AddQuantifiableResults])
  }

  /** The closing advice: a present closing without a call to action. */
  function ClosingAdvice(closing: string): (recs: seq<Advice>)
    ensures AddCallToAction in recs <==> closing != [] && !ContainsCallToAction(closing)
    ensures forall x | x in recs :: Rule(x) == 3
  {
    if closing != [] && !ContainsCallToAction(closing) then [AddCallToAction] else []
  }

  /** `_generate_content_recommendations`. */
  function ContentAdvice(c: LetterContent, wordCount: nat): seq<Advice>
  {
    LengthAdvice(wordCount) + OpeningAdvice(c.opening) + BodyAdvice(c.bodies) + ClosingAdvice(c.closing)
  }

  /** `_generate_content_recommendations`, with the weak-phrase loop that stops at the first hit. */
  method GenerateContentRecommendations(c: LetterContent, wordCount: nat) returns (recs: seq<Advice>)
    ensures recs == ContentAdvice(c, wordCount)
  {
    recs := LengthAdvice(wordCount);
    var opening: seq<Advice> := [];
    if c.opening != [] {
      var lower := Lower(c.opening);
      var j := 0;
      var found := false;
      while j < |WeakPhrases| && !found
        invariant 0 <= j <= |WeakPhrases|
        invariant !found ==> forall k | 0 <= k < j :: !Contains(lower, WeakPhrases[k])
        invariant found ==> (0 < j && opening == [ReplaceWeakPhrase(WeakPhrases[j - 1])]
          && Contains(lower, WeakPhrases[j - 1]) && forall k | 0 <= k < j - 1 :: !Contains(lower, WeakPhrases[k]))
        invariant !found ==> opening == []
      {
        if Contains(lower, WeakPhrases[j]) {
          opening := [ReplaceWeakPhrase(WeakPhrases[j])];
          found := true;
        }
        j := j + 1;
      }
      FirstContainedUnique(lower, WeakPhrases);
      assert opening == WeakPhraseAdvice(c.opening);
      if !ContainsCompanyOrPosition(c.opening) {
        opening := opening + [MentionCompanyAndPosition];
      }
    }
    assert opening == OpeningAdvice(c.opening);
    recs := recs + opening + BodyAdvice(c.bodies) + ClosingAdvice(c.closing);
  }

  /** The first occurring phrase is the only one with no occurring phrase before it. */
  lemma FirstContainedUnique(t: string, phrases: seq<string>)
    ensures forall j | 0 <= j < |phrases| && Contains(t, phrases[j]) && (forall k | 0 <= k < j :: !Contains(t, phrases[k])) ::
      FirstContained(t, phrases) == Some(phrases[j])
  {
    forall j | 0 <= j < |phrases| && Contains(t, phrases[j]) && (forall k | 0 <= k < j :: !Contains(t, phrases[k]))
      ensures FirstContained(t, phrases) == Some(phrases[j])
    {
      var r := FirstContained(t, phrases);
      var i :| 0 <= i < |phrases| && phrases[i] == r.value && Contains(t, r.value)
        && forall k | 0 <= k < i :: !Contains(t, phrases[k]);
      assert i == j;
    }
  }

  /**
   * The length and opening advice: expand under 250 words, condense over 400;
   * a weak-phrase advice naming the first weak phrase of a present opening;
   * the company advice for a present opening without a company or position.
   */
  lemma LengthAndOpeningAdvice(c: LetterContent, wordCount: nat)
    ensures var recs := ContentAdvice(c, wordCount);
      (ExpandLetter in recs <==> wordCount < OptimalMin)
      && (CondenseLetter in recs <==> wordCount > OptimalMax)
      && (MentionCompanyAndPosition in recs <==> c.opening != [] && !ContainsCompanyOrPosition(c.opening))
  {
    var length, opening := LengthAdvice(wordCount), OpeningAdvice(c.opening);
    var body, closing := BodyAdvice(c.bodies), ClosingAdvice(c.closing);
    assert ContentAdvice(c, wordCount) == length + opening + body + closing;
  }

  /** The weak-phrase advice names the first listed weak phrase found in a present opening, and only that one. */
  lemma WeakPhraseAdviceMeaning(c: LetterContent, wordCount: nat)
    ensures forall p :: ReplaceWeakPhrase(p) in ContentAdvice(c, wordCount) <==>
      c.opening != [] && FirstContained(Lower(c.opening), WeakPhrases) == Some(p)
  {
    var length, opening := LengthAdvice(wordCount), OpeningAdvice(c.opening);
    var body, closing := BodyAdvice(c.bodies), ClosingAdvice(c.closing);
    assert ContentAdvice(c, wordCount) == length + opening + body + closing;
  }

  /**
   * The body and closing advice: examples and numbers are asked for when no
   * body has them, a call to action when a present closing lacks one.
   */
  lemma BodyAndClosingAdvice(c: LetterContent, wordCount: nat)
    ensures var recs := ContentAdvice(c, wordCount);
      (IncludeExamples in recs <==> c.bodies != [] && !SomeBody(c.bodies, ContainsSpecificExamples))
      && (AddQuantifiableResults in recs <==> c.bodies != [] && !SomeBody(c.bodies, ContainsNumbers))
      && (AddCallToAction in recs <==> c.closing != [] && !ContainsCallToAction(c.closing))
  {
    AdviceIn(c, wordCount, IncludeExamples);
    AdviceIn(c, wordCount, AddQuantifiableResults);
    AdviceIn(c, wordCount, AddCallToAction);
  }

  /** An advice is in the content advice exactly when it is in the part its rule belongs to. */
  lemma AdviceIn(c: LetterContent, wordCount: nat, x: Advice)
    ensures x in ContentAdvice(c, wordCount) <==>
      (Rule(x) == 0 && x in LengthAdvice(wordCount)) || (Rule(x) == 1 && x in OpeningAdvice(c.opening))
      || (Rule(x) == 2 && x in BodyAdvice(c.bodies)) || (Rule(x) == 3 && x in ClosingAdvice(c.closing))
  {
    var length, opening := LengthAdvice(wordCount), OpeningAdvice(c.opening);
    var body, closing := BodyAdvice(c.bodies), ClosingAdvice(c.closing);
    assert ContentAdvice(c, wordCount) == length + opening + body + closing;
  }

  // ---------------------------------------------------------------------------
  // Style recommendations

  /** `' '.join([opening] + body_paragraphs + [closing])`. */
  function AllText(c: LetterContent): string
  {
    Join([c.opening] + c.bodies + [c.closing], " ")
  }

  /** The 1-based numbers of the present bodies with more than 150 words. */
  function LongParagraphs(bodies: seq<string>): seq<nat>
  {
    if bodies == [] then []
    else
      var n := |bodies|;
      LongParagraphs(bodies[..n - 1]) + (if bodies[n - 1] != [] && WordCount(bodies[n - 1]) > MaxParagraphWords then [n] else [])
  }

  /** A word the frequency table counts: longer than 4 characters and alphabetic. */
  predicate Counted(w: string) { |w| > 4 && IsAlphaString(w) }

  function Occurrences(ws: seq<string>, w: string): (n: nat)
    ensures n <= |ws|
  {
    if ws == [] then 0 else Occurrences(ws[..|ws| - 1], w) + (if ws[|ws| - 1] == w then 1 else 0)
  }

  lemma OccurrencesStep(ws: seq<string>, i: nat, v: string)
    requires i < |ws|
    ensures Occurrences(ws[..i + 1], v) == Occurrences(ws[..i], v) + (if ws[i] == v then 1 else 0)
  {
    assert ws[..i + 1][..i] == ws[..i];
  }

  lemma {:induction false} OccurrencesAbsent(ws: seq<string>, v: string)
    requires v !in ws
    ensures Occurrences(ws, v) == 0
  {
    if ws != [] {
      OccurrencesAbsent(ws[..|ws| - 1], v);
    }
  }

  /** The keys of the frequency dictionary, in insertion (first-occurrence) order. */
  function CountedOrder(ws: seq<string>): seq<string>
  {
    if ws == [] then []
    else
      var prior, w := CountedOrder(ws[..|ws| - 1]), ws[|ws| - 1];
      if Counted(w) && w !in prior then prior + [w] else prior
  }

  /** The keys are exactly the counted words, each once. */
  lemma {:induction false} CountedOrderMeaning(ws: seq<string>)
    ensures var order := CountedOrder(ws);
      (forall i, j | 0 <= i < j < |order| :: order[i] != order[j])
      && (forall w :: w in order <==> w in ws && Counted(w))
  {
    if ws != [] {
      CountedOrderMeaning(ws[..|ws| - 1]);
    }
  }

  lemma CountedOrderStep(ws: seq<string>, i: nat)
    requires i < |ws|
    ensures CountedOrder(ws[..i + 1]) ==
      if Counted(ws[i]) && ws[i] !in CountedOrder(ws[..i]) then CountedOrder(ws[..i]) + [ws[i]] else CountedOrder(ws[..i])
  {
    assert ws[..i + 1][..i] == ws[..i];
  }

  /** `[word for word, count in word_frequency.items() if count > 3]` over `order`. */
  function Frequent(order: seq<string>, ws: seq<string>): seq<string>
  {
    if order == [] then []
    else
      var prior, w := Frequent(order[..|order| - 1], ws), order[|order| - 1];
      if Occurrences(ws, w) > 3 then prior + [w] else prior
  }

  /** The frequent words are exactly the listed words used more than 3 times, without repeats when the list has none. */
  lemma {:induction false} FrequentMembers(order: seq<string>, ws: seq<string>)
    ensures forall w :: w in Frequent(order, ws) <==> w in order && Occurrences(ws, w) > 3
    ensures Distinct(order) ==> Distinct(Frequent(order, ws))
  {
    if order != [] {
      var init, w := order[..|order| - 1], order[|order| - 1];
      FrequentMembers(init, ws);
      assert order == init + [w];
      if Distinct(order) {
        forall a, b | 0 <= a < b < |init| ensures init[a] != init[b] {
          assert init[a] == order[a] && init[b] == order[b];
        }
        forall k | 0 <= k < |init| ensures init[k] != w {
          assert init[k] == order[k];
        }
        var prior, r := Frequent(init, ws), Frequent(order, ws);
        assert Distinct(init);
        assert w !in prior;
        forall i, j | 0 <= i < j < |r| ensures r[i] != r[j] {
          if Occurrences(ws, w) > 3 {
            assert r == prior + [w];
            assert r[i] == prior[i] && prior[i] in prior;
            if j < |prior| {
              assert r[j] == prior[j];
            } else {
              assert r[j] == w;
            }
          } else {
            assert r == prior;
          }
        }
      }
    }
  }

  /** The words named by the repetition advice: the first three repeated ones. */
  function RepeatedWords(text: string): seq<string>
  {
    var ws := Words(Lower(text));
    Frequent(CountedOrder(ws), ws)
  }

  /** The power-word and passive-voice advice on the joined text. */
  function WordingAdvice(all: string): (recs: seq<Advice>)
    ensures UsePowerWords in recs <==> CountContained(Lower(all), PowerWords) < 3
    ensures ReducePassiveVoice in recs <==> PassiveCount(all) > 2
    ensures forall x | x in recs :: Rule(x) == 4
  {
    (if CountContained(Lower(all), PowerWords) < 3 then [UsePowerWords] else [])
    + (if PassiveCount(all) > 2 then [ReducePassiveVoice] else [])
  }

  /** The long-paragraph advice, naming every long body. */
  function LongParagraphAdvice(bodies: seq<string>): (recs: seq<Advice>)
    ensures forall ns :: BreakUpParagraphs(ns) in recs <==> ns == LongParagraphs(bodies) && ns != []
    ensures forall x | x in recs :: Rule(x) == 5
  {
    var long := LongParagraphs(bodies);
    if long != [] then [BreakUpParagraphs(long)] else []
  }

  /** The repeated words are distinct counted words used more than 3 times. */
  lemma RepeatedWordsMeaning(all: string)
    ensures var r := RepeatedWords(all);
      (forall i, j | 0 <= i < j < |r| :: r[i] != r[j])
      && (forall w | w in r :: Counted(w) && Occurrences(Words(Lower(all)), w) > 3)
  {
    CountedOrderMeaning(Words(Lower(all)));
    FrequentMembers(CountedOrder(Words(Lower(all))), Words(Lower(all)));
  }

  /** The repetition advice, naming the first three repeated words. */
  function RepetitionAdvice(all: string): (recs: seq<Advice>)
    ensures forall words :: VaryVocabulary(words) in recs <==>
      RepeatedWords(all) != [] && words == Take(RepeatedWords(all), 3)
    ensures forall x | x in recs :: Rule(x) == 6
  {
    var repeated := RepeatedWords(all);
    if repeated != [] then [VaryVocabulary(Take(repeated, 3))] else []
  }

  /** `_generate_style_recommendations`, without the textstat readability advice. */
  function StyleAdvice(c: LetterContent): seq<Advice>
  {
    var all := AllText(c);
    WordingAdvice(all) + LongParagraphAdvice(c.bodies) + RepetitionAdvice(all)
  }

  /** The frequency dictionary of `_generate_style_recommendations`, built word by word. */
  method WordFrequencies(ws: seq<string>) returns (freq: map<string, nat>, order: seq<string>)
    ensures order == CountedOrder(ws)
    ensures forall w :: w in freq <==> w in order
    ensures forall w | w in freq :: freq[w] == Occurrences(ws, w)
  {
    freq := map[];
    order := [];
    var i := 0;
    while i < |ws|
      invariant 0 <= i <= |ws|
      invariant order == CountedOrder(ws[..i])
      invariant forall w :: w in freq <==> w in order
      invariant forall w | w in freq :: freq[w] == Occurrences(ws[..i], w)
    {
      var w := ws[i];
      ghost var before := freq;
      CountedOrderStep(ws, i);
      if Counted(w) {
        if w in freq {
          freq := freq[w := freq[w] + 1];
        } else {
          freq := freq[w := 1];
          order := order + [w];
        }
      }
      forall v | v in freq
        ensures freq[v] == Occurrences(ws[..i + 1], v)
      {
        OccurrencesStep(ws, i, v);
        CountedOrderMeaning(ws[..i]);
        if v !in before {
          OccurrencesAbsent(ws[..i], v);
        }
      }
      i := i + 1;
    }
    assert ws[..i] == ws;
  }

  /** The paragraph loop of `_generate_style_recommendations`: the 1-based numbers of the long bodies. */
  method FindLongParagraphs(bodies: seq<string>) returns (long: seq<nat>)
    ensures long == LongParagraphs(bodies)
  {
    long := [];
    var i := 0;
    while i < |bodies|
      invariant 0 <= i <= |bodies|
      invariant long == LongParagraphs(bodies[..i])
    {
      if bodies[i] != [] && WordCount(bodies[i]) > MaxParagraphWords {
        long := long + [i + 1];
      }
      assert bodies[..i + 1][..i] == bodies[..i];
      i := i + 1;
    }
    assert bodies[..i] == bodies;
  }

  /** The words of the frequency table, in first-use order, counted more than 3 times. */
  method FrequentWords(freq: map<string, nat>, order: seq<string>, ws: seq<string>) returns (repeated: seq<string>)
    requires forall i | 0 <= i < |order| :: order[i] in freq && freq[order[i]] == Occurrences(ws, order[i])
    ensures repeated == Frequent(order, ws)
  {
    repeated := [];
    var j := 0;
    while j < |order|
      invariant 0 <= j <= |order|
      invariant repeated == Frequent(order[..j], ws)
    {
      FrequentStep(order, j, ws);
      if freq[order[j]] > 3 {
        repeated := repeated + [order[j]];
      }
      j := j + 1;
    }
    assert order[..j] == order;
  }

  lemma FrequentStep(order: seq<string>, j: nat, ws: seq<string>)
    requires j < |order|
    ensures Frequent(order[..j + 1], ws) ==
      Frequent(order[..j], ws) + (if Occurrences(ws, order[j]) > 3 then [order[j]] else [])
  {
    assert order[..j + 1][..j] == order[..j];
  }

  /** `_generate_style_recommendations`, with the paragraph loop and the frequency table. */
  method GenerateStyleRecommendations(c: LetterContent) returns (recs: seq<Advice>)
    ensures recs == StyleAdvice(c)
  {
    var all := AllText(c);
    var long := FindLongParagraphs(c.bodies);
    var longAdvice: seq<Advice> := [];
    if long != [] {
      longAdvice := [BreakUpParagraphs(long)];
    }
    var ws := Words(Lower(all));
    var freq, order := WordFrequencies(ws);
    var repeated := FrequentWords(freq, order, ws);
    var repetition: seq<Advice> := [];
    if repeated != [] {
      repetition := [VaryVocabulary(Take(repeated, 3))];
    }
    recs := WordingAdvice(all) + longAdvice + repetition;
  }

  /**
   * The repetition advice names one to three distinct words, each alphabetic,
   * longer than 4 characters and used more than 3 times in the lower-cased text.
   */
  lemma RepetitionAdviceMeaning(c: LetterContent, words: seq<string>)
    requires VaryVocabulary(words) in StyleAdvice(c)
    ensures 1 <= |words| <= 3
    ensures forall i, j | 0 <= i < j < |words| :: words[i] != words[j]
    ensures forall w | w in words :: Counted(w) && Occurrences(Words(Lower(AllText(c))), w) > 3
  {
    var all := AllText(c);
    var wording, long := WordingAdvice(all), LongParagraphAdvice(c.bodies);
    assert StyleAdvice(c) == wording + long + RepetitionAdvice(all);
    assert Rule(VaryVocabulary(words)) == 6;
    var repeated := RepeatedWords(all);
    RepeatedWordsMeaning(all);
    assert forall w | w in words :: w in repeated;
  }

  /** A paragraph named by the long-paragraph advice is a present body of more than 150 words. */
  lemma {:induction false} LongParagraphsMeaning(bodies: seq<string>, n: nat)
    ensures n in LongParagraphs(bodies) <==>
      1 <= n <= |bodies| && bodies[n - 1] != [] && WordCount(bodies[n - 1]) > MaxParagraphWords
  {
    if bodies != [] {
      var init := bodies[..|bodies| - 1];
      LongParagraphsMeaning(init, n);
      if 1 <= n <= |init| {
        assert bodies[n - 1] == init[n - 1];
      }
    }
  }

  // ---------------------------------------------------------------------------
  // Overall score

  function MaxReal(a: real, b: real): real { if a < b then b else a }

  /** The word-count points: 20 inside 250..400, less 0.1 per missing word or 0.05 per extra word. */
  function WordScore(wordCount: nat): (w: real)
    ensures 0.0 <= w <= 20.0
    ensures w == 20.0 <==> OptimalMin <= wordCount <= OptimalMax
  {
    if OptimalMin <= wordCount <= OptimalMax then 20.0
    else if wordCount < OptimalMin then MaxReal(0.0, 20.0 - (OptimalMin - wordCount) as real * 0.1)
    else MaxReal(0.0, 20.0 - (wordCount - OptimalMax) as real * 0.05)
  }

  /** The quality points: examples, numbers, no weak phrase, power words (2 each, at most 10), a company mention. */
  function QualityScore(text: string): (q: nat)
    ensures q <= 40
  {
    (if ContainsSpecificExamples(text) then 10 else 0)
    + (if ContainsNumbers(text) then 10 else 0)
    + (if ContainsAny(text, WeakPhrases) then 0 else 5)
    + Min(10, 2 * CountContained(Lower(text), PowerWords))
    + (if ContainsCompanyOrPosition(text) then 5 else 0)
  }

  /** The text the score and the tone analysis read: `' '.join([opening, ' '.join(bodies), closing])`. */
  function ScoreText(c: LetterContent): string
  {
    Join([c.opening, Join(c.bodies, " "), c.closing], " ")
  }

  /** The points before the error penalty: 40% of completeness, the word points and the quality points. */
  function RawScore(completeness: int, wordCount: nat, text: string): real
  {
    completeness as real * 0.4 + WordScore(wordCount) + QualityScore(text) as real
  }

  /** `_calculate_overall_score`: 5 points off per validation error, floored at 0, capped at 100, truncated. */
  function OverallScore(completeness: int, wordCount: nat, errorCount: nat, text: string): (score: int)
    ensures 0 <= score <= 100
  {
    var penalised := MaxReal(0.0, RawScore(completeness, wordCount, text) - (5 * errorCount) as real);
    Trunc(MinReal(100.0, penalised))
  }

  /** With a completeness of at most 100 the raw points never exceed 100, so only the floor at 0 can bind. */
  lemma RawScoreAtMost100(completeness: int, wordCount: nat, text: string)
    requires completeness <= 100
    ensures RawScore(completeness, wordCount, text) <= 100.0
    ensures OverallScore(completeness, wordCount, 0, text) == Trunc(MaxReal(0.0, RawScore(completeness, wordCount, text)))
  {
  }

  /** Every further validation error can only lower the score. */
  lemma ScoreFallsWithErrors(completeness: int, wordCount: nat, e1: nat, e2: nat, text: string)
    requires e1 <= e2
    ensures OverallScore(completeness, wordCount, e2, text) <= OverallScore(completeness, wordCount, e1, text)
  {
    var raw := RawScore(completeness, wordCount, text);
    var p1, p2 := MaxReal(0.0, raw - (5 * e1) as real), MaxReal(0.0, raw - (5 * e2) as real);
    TruncMonotone(MinReal(100.0, p2), MinReal(100.0, p1));
  }

  /** Each error below the floor costs exactly 5 points. */
  lemma ErrorCostsFive(completeness: int, wordCount: nat, errorCount: nat, text: string)
    requires 0 <= completeness <= 100
    requires RawScore(completeness, wordCount, text) - (5 * (errorCount + 1)) as real >= 0.0
    ensures OverallScore(completeness, wordCount, errorCount + 1, text) == OverallScore(completeness, wordCount, errorCount, text) - 5
  {
    var raw := RawScore(completeness, wordCount, text);
    RawScoreAtMost100(completeness, wordCount, text);
    TruncShift(raw - (5 * (errorCount + 1)) as real);
  }

  /** Adding a whole number moves the truncation by the same amount. */
  lemma TruncShift(x: real)
    requires x >= 0.0
    ensures Trunc(x + 5.0) == Trunc(x) + 5
  {
  }

  // ---------------------------------------------------------------------------
  // The whole validation

  datatype LetterValidation = LetterValidation(
    isValid: bool, completeness: int, errors: seq<LetterError>,
    recommendations: seq<Advice>, wordCount: nat, score: int)

  /** `validate_cover_letter_content`. */
  method ValidateCoverLetterContent(c: LetterContent) returns (v: LetterValidation)
    ensures v.errors == StructureErrors(c) + WordCountErrors(TotalWords(c))
    ensures v.isValid <==> StructureErrors(c) == [] && MinWords <= TotalWords(c) <= MaxWords
    ensures v.wordCount == TotalWords(c) && v.completeness == Completeness(c)
    ensures v.recommendations == ContentAdvice(c, TotalWords(c)) + StyleAdvice(c)
    ensures v.score == OverallScore(v.completeness, v.wordCount, |v.errors|, ScoreText(c))
    ensures 0 <= v.score <= 100
  {
    var errors := ValidateStructure(c);
    var words := CalculateWordCount(c);
    errors := errors + WordCountErrors(words);
    var completeness := Completeness(c);
    var content := GenerateContentRecommendations(c, words);
    var style := GenerateStyleRecommendations(c);
    var score := OverallScore(completeness, words, |errors|, ScoreText(c));
    v := LetterValidation(errors == [], completeness, errors, content + style, words, score);
  }

  // ---------------------------------------------------------------------------
  // Tone and style

  const PositiveWords: seq<string> := [
    "excited", "enthusiastic", "passionate", "thrilled", "delighted",
    "confident", "optimistic", "motivated", "inspired", "eager"]
  const FormalWords: seq<string> := [
    "respectfully", "accordingly", "furthermore", "subsequently",
    "consequently", "therefore", "nonetheless", "nevertheless"]
  const CasualWords: seq<string> := [
    "really", "pretty", "quite", "totally", "absolutely",
    "definitely", "honestly", "basically", "obviously"]
  const Contractions: seq<string> := ["don't", "can't", "won't", "I'm", "I've", "I'd", "I'll"]
  const FormalTransitions: seq<string> := ["furthermore", "moreover", "consequently", "therefore"]
  const EnthusiasmWords: seq<string> := [
    "excited", "thrilled", "passionate", "eager", "enthusiastic",
    "love", "enjoy", "fascinated", "inspired", "motivated"]

  datatype Tone = ProfessionalAndEnthusiastic | Enthusiastic | Professional | TooCasual | Neutral
  datatype Formality = TooInformal | VeryFormal | AppropriatelyFormal
  datatype Confidence = Confident | LacksConfidence | ModerateConfidence
  datatype Enthusiasm = HighEnthusiasm | ModerateEnthusiasm | LowEnthusiasm

  /** `_analyze_tone`. */
  function ToneOf(text: string): (t: Tone)
    ensures var positive, formal, casual :=
      CountContained(Lower(text), PositiveWords), CountContained(Lower(text), FormalWords), CountContained(Lower(text), CasualWords);
      (t in {ProfessionalAndEnthusiastic, Enthusiastic} <==> positive > 2)
      && (t in {ProfessionalAndEnthusiastic, Professional} <==> formal > casual)
      && (t == TooCasual <==> positive <= 2 && formal <= casual && casual > 0)
  {
    var lower := Lower(text);
    var positive := CountContained(lower, PositiveWords);
    var formal := CountContained(lower, FormalWords);
    var casual := CountContained(lower, CasualWords);
    if positive > 2 then
      if formal > casual then ProfessionalAndEnthusiastic else Enthusiastic
    else if formal > casual then Professional
    else if casual > 0 then TooCasual
    else Neutral
  }

  /** `_analyze_formality`, on the text as written (case-sensitive). */
  function FormalityOf(text: string): (f: Formality)
    ensures f == TooInformal <==> CountContained(text, Contractions) > 2
    ensures f == VeryFormal <==> CountContained(text, Contractions) <= 2 && CountContained(text, FormalTransitions) > 1
  {
    if CountContained(text, Contractions) > 2 then TooInformal
    else if CountContained(text, FormalTransitions) > 1 then VeryFormal
    else AppropriatelyFormal
  }

  /** `_analyze_enthusiasm`: High for 3 or more enthusiasm words, Moderate for 1 or 2, else Low. */
  function EnthusiasmOf(text: string): (e: Enthusiasm)
    ensures e == HighEnthusiasm <==> CountContained(Lower(text), EnthusiasmWords) >= 3
    ensures e == LowEnthusiasm <==> forall j | 0 <= j < |EnthusiasmWords| :: !Contains(Lower(text), EnthusiasmWords[j])
  {
    CountContainedPositive(Lower(text), EnthusiasmWords);
    var n := CountContained(Lower(text), EnthusiasmWords);
    if n >= 3 then HighEnthusiasm else if n >= 1 then ModerateEnthusiasm else LowEnthusiasm
  }

  function EnthusiasmRank(e: Enthusiasm): nat
  {
    match e
    case LowEnthusiasm => 0
    case ModerateEnthusiasm => 1
    case HighEnthusiasm => 2
  }

  /** Adding text to a letter never lowers its enthusiasm level. */
  lemma EnthusiasmGrowsWithText(a: string, b: string)
    ensures EnthusiasmRank(EnthusiasmOf(a)) <= EnthusiasmRank(EnthusiasmOf(a + b))
  {
    LowerAppend(a, b);
    forall w | Contains(Lower(a), w)
      ensures Contains(Lower(a + b), w)
    {
      ContainsExtend(Lower(a), Lower(b), w);
    }
    CountContainedMonotone(Lower(a), Lower(a + b), EnthusiasmWords);
  }

  // ---------------------------------------------------------------------------
  // Confidence

  /** The confidence phrases as the source lists them; five begin with a capital "I". */
  const ConfidentPhrases: seq<string> := [
    "I am confident", "I excel at", "I have successfully", "I can",
    "I will", "my expertise", "proven track record", "demonstrated ability"]
  const UncertainPhrases: seq<string> := [
    "I think", "I believe", "I hope", "maybe", "perhaps",
    "I would try", "I might be able", "hopefully"]

  function ConfidenceFromCounts(confident: nat, uncertain: nat): (r: Confidence)
    ensures r == Confident <==> confident > uncertain && confident > 1
    ensures r == LacksConfidence <==> uncertain > confident
  {
    if confident > uncertain && confident > 1 then Confident
    else if uncertain > confident then LacksConfidence
    else ModerateConfidence
  }

  /**
   * `_analyze_confidence` as written: the phrases are searched in the
   * lower-cased text, so only the three phrases of each list without a
   * capital "I" decide the level.
   */
  function ConfidenceAsWritten(text: string): (r: Confidence)
    ensures var confident, uncertain := CountContained(Lower(text), ConfidentPhrases[5..]),
      CountContained(Lower(text), UncertainPhrases[3..5]) + CountContained(Lower(text), UncertainPhrases[7..]);
      && (r == Confident <==> confident > uncertain && confident > 1)
      && (r == LacksConfidence <==> uncertain > confident)
  {
    OnlyLowerCasePhrasesCount(text);
    ConfidenceFromCounts(CountContained(Lower(text), ConfidentPhrases), CountContained(Lower(text), UncertainPhrases))
  }

  /** Lower-cased text holds no capital letter, so a phrase that has one never occurs in it. */
  lemma CapitalNeverInLower(text: string, phrase: string)
    requires HasUpper(phrase)
    ensures !Contains(Lower(text), phrase)
  {
  }

  /**
   * As written, only "my expertise", "proven track record" and
   * "demonstrated ability" can ever count as confident, and only "maybe",
   * "perhaps" and "hopefully" as uncertain: a letter saying "I am confident",
   * "I can" and "I will" scores the same as one saying none of them.
   */
  lemma CapitalPhrasesNeverCount(text: string)
    ensures CountContained(Lower(text), ConfidentPhrases) <= 3
    ensures CountContained(Lower(text), UncertainPhrases) <= 3
  {
    var lower := Lower(text);
    OnlyLowerCasePhrasesCount(text);
    assert |ConfidentPhrases[5..]| == 3 && |UncertainPhrases[3..5]| == 2 && |UncertainPhrases[7..]| == 1;
  }

  /** In the lower-cased text only the phrases without a capital letter can be found. */
  lemma OnlyLowerCasePhrasesCount(text: string)
    ensures CountContained(Lower(text), ConfidentPhrases) == CountContained(Lower(text), ConfidentPhrases[5..])
    ensures CountContained(Lower(text), UncertainPhrases)
         == CountContained(Lower(text), UncertainPhrases[3..5]) + CountContained(Lower(text), UncertainPhrases[7..])
  {
    var lower := Lower(text);
    forall p | p in ["I am confident", "I excel at", "I have successfully", "I can", "I will",
                     "I think", "I believe", "I hope", "I would try", "I might be able"]
      ensures !Contains(lower, p)
    {
      assert IsUpper(p[0]);
      CapitalNeverInLower(text, p);
    }
    assert ConfidentPhrases[..5] + ConfidentPhrases[5..] == ConfidentPhrases;
    CountContainedSplit(lower, ConfidentPhrases[..5], ConfidentPhrases[5..]);
    CountContainedNone(lower, ConfidentPhrases[..5]);
    assert UncertainPhrases == UncertainPhrases[..3] + UncertainPhrases[3..5] + UncertainPhrases[5..];
    CountContainedSplit(lower, UncertainPhrases[..3] + UncertainPhrases[3..5], UncertainPhrases[5..]);
    CountContainedSplit(lower, UncertainPhrases[..3], UncertainPhrases[3..5]);
    CountContainedNone(lower, UncertainPhrases[..3]);
    CountContainedNone(lower, UncertainPhrases[5..7]);
    assert UncertainPhrases[5..] == UncertainPhrases[5..7] + UncertainPhrases[7..];
    CountContainedSplit(lower, UncertainPhrases[5..7], UncertainPhrases[7..]);
  }

  lemma {:induction false} CountContainedSplit(t: string, a: seq<string>, b: seq<string>)
    ensures CountContained(t, a + b) == CountContained(t, a) + CountContained(t, b)
  {
    if b != [] {
      CountContainedSplit(t, a, b[..|b| - 1]);
      assert (a + b)[..|a + b| - 1] == a + b[..|b| - 1];
    } else {
      assert a + b == a;
    }
  }

  lemma {:induction false} CountContainedNone(t: string, terms: seq<string>)
    requires forall j | 0 <= j < |terms| :: !Contains(t, terms[j])
    ensures CountContained(t, terms) == 0
  {
    if terms != [] {
      CountContainedNone(t, terms[..|terms| - 1]);
    }
  }

  /** `_analyze_confidence` with the phrases lower-cased as well, so that every listed phrase can count. */
  function ConfidenceOf(text: string): (r: Confidence)
    ensures var confident, uncertain :=
      CountContained(Lower(text), LowerAll(ConfidentPhrases)), CountContained(Lower(text), LowerAll(UncertainPhrases));
      && (r == Confident <==> confident > uncertain && confident > 1)
      && (r == LacksConfidence <==> uncertain > confident)
  {
    ConfidenceFromCounts(CountContained(Lower(text), LowerAll(ConfidentPhrases)), CountContained(Lower(text), LowerAll(UncertainPhrases)))
  }

  /** A phrase occurring in the text, in any case, occurs in the lower-cased text once lower-cased itself. */
  lemma LowerOccurs(text: string, phrase: string)
    requires Contains(text, phrase)
    ensures Contains(Lower(text), Lower(phrase))
  {
    var i :| 0 <= i <= |text| - |phrase| && OccursAt(text, phrase, i);
    assert Lower(text)[i..i + |phrase|] == Lower(phrase);
    assert OccursAt(Lower(text), Lower(phrase), i);
  }

  /** In the corrected classifier every listed confident phrase that occurs in the letter counts. */
  lemma ConfidentPhrasesCount(text: string)
    ensures CountContained(Lower(text), LowerAll(ConfidentPhrases)) >= CountContained(text, ConfidentPhrases)
  {
    CountLowered(text, ConfidentPhrases);
  }

  lemma {:induction false} CountLowered(text: string, phrases: seq<string>)
    ensures CountContained(Lower(text), LowerAll(phrases)) >= CountContained(text, phrases)
  {
    if phrases != [] {
      var init, last := phrases[..|phrases| - 1], phrases[|phrases| - 1];
      CountLowered(text, init);
      assert LowerAll(phrases)[..|phrases| - 1] == LowerAll(init);
      if Contains(text, last) {
        LowerOccurs(text, last);
      }
    }
  }

  // ---------------------------------------------------------------------------
  // Word variety

  /** The length of the run of word characters that starts `s`. */
  function WordRunLength(s: string): (k: nat)
    ensures k <= |s|
    ensures forall i | 0 <= i < k :: IsWordChar(s[i])
    ensures k < |s| ==> !IsWordChar(s[k])
  {
    if s == [] || !IsWordChar(s[0]) then 0
    else
      var k := 1 + WordRunLength(s[1..]);
      assert forall i | 1 <= i < k :: s[i] == s[1..][i - 1];
      k
  }

  /** `re.findall(r'\b\w+\b', s)`: the maximal runs of word characters, in order. */
  function WordRuns(s: string): (ws: seq<string>)
    ensures forall w | w in ws :: w != [] && forall i | 0 <= i < |w| :: IsWordChar(w[i])
    decreases |s|
  {
    if s == [] then []
    else if !IsWordChar(s[0]) then WordRuns(s[1..])
    else
      var k := WordRunLength(s);
      [s[..k]] + WordRuns(s[k..])
  }

  /** `[w.lower() for w in ws if len(w) > 3]`. */
  function LowerLong(ws: seq<string>): (r: seq<string>)
    ensures forall w | w in r :: |w| > 3
  {
    if ws == [] then []
    else
      var last := ws[|ws| - 1];
      LowerLong(ws[..|ws| - 1]) + (if |last| > 3 then [Lower(last)] else [])
  }

  /** The lower-cased words of more than three characters whose variety is measured. */
  function VarietyWords(text: string): seq<string>
  {
    LowerLong(WordRuns(text))
  }

  /** The word-variety report; `NoVarietyWords` is the two-key report of a text without long words. */
  datatype WordVariety =
    | NoVarietyWords
    | Variety(varietyScore: real, uniquePercentage: real, totalWords: nat, uniqueWords: nat)

  /** `_analyze_word_variety`: the distinct long words as a percentage of all long words. */
  function WordVarietyOf(text: string): (v: WordVariety)
    ensures v.NoVarietyWords? <==> VarietyWords(text) == []
    ensures v.Variety? ==>
      && v.totalWords == |VarietyWords(text)| && v.uniqueWords == |SetOf(VarietyWords(text))|
      && v.uniquePercentage == v.varietyScore
  {
    var words := VarietyWords(text);
    if words == [] then NoVarietyWords
    else
      var unique := |SetOf(words)|;
      var percentage := (unique as real) / (|words| as real) * 100.0;
      Variety(percentage, percentage, |words|, unique)
  }

  /**
   * Some long words are distinct and none is counted twice: the variety lies
   * in (0, 100], and it is 100 exactly when no long word repeats.
   */
  lemma VarietyRange(text: string)
    requires WordVarietyOf(text).Variety?
    ensures 0.0 < WordVarietyOf(text).varietyScore <= 100.0
    ensures WordVarietyOf(text).varietyScore == 100.0 <==> Distinct(VarietyWords(text))
  {
    var words := VarietyWords(text);
    DistinctCount(words);
    PercentageOfWhole(|SetOf(words)|, |words|);
  }

  /** A share of `u` out of `n`, for `1 <= u <= n`, is a percentage in (0, 100], and 100 exactly when `u == n`. */
  lemma PercentageOfWhole(u: nat, n: nat)
    requires 1 <= u <= n
    ensures 0.0 < (u as real) / (n as real) * 100.0 <= 100.0
    ensures (u as real) / (n as real) * 100.0 == 100.0 <==> u == n
  {
    var q := (u as real) / (n as real);
    assert q * (n as real) == u as real;
    if q * 100.0 == 100.0 {
      assert q == 1.0;
    }
  }

  // ---------------------------------------------------------------------------
  // Sentence complexity

  datatype Complexity = Simple | Moderate | Complex

  /** The sentence report; `NoSentences` is the report of complexity "Unknown". */
  datatype SentenceComplexity =
    | NoSentences
    | SentenceStats(averageLength: real, complexity: Complexity, sentenceCount: nat,
                    longestSentence: int, shortestSentence: int)

  /** `[len(sentence.split()) for sentence in sentences]`. */
  function SentenceLengths(sentences: seq<string>): (ls: seq<int>)
    ensures |ls| == |sentences| && forall i | 0 <= i < |ls| :: ls[i] == WordCount(sentences[i])
  {
    seq(|sentences|, i requires 0 <= i < |sentences| => WordCount(sentences[i]))
  }

  /** Below 10 words a sentence is simple, below 20 moderate, and complex from 20 on. */
  function ComplexityOf(average: real): Complexity
  {
    if average < 10.0 then Simple else if average < 20.0 then Moderate else Complex
  }

  /** `_analyze_sentence_complexity`. */
  function SentenceComplexityOf(text: string): (sc: SentenceComplexity)
    ensures sc.NoSentences? <==> Sentences(text) == []
  {
    var sentences := Sentences(text);
    if sentences == [] then NoSentences
    else
      var lengths := SentenceLengths(sentences);
      var average := (Sum(lengths) as real) / (|lengths| as real);
      SentenceStats(average, ComplexityOf(average), |sentences|, Highest(lengths), Lowest(lengths))
  }

  /**
   * The report counts the sentences; the average lies between the shortest
   * and the longest sentence, both of which occur; a text whose sentences
   * all have fewer than 10 words is simple, and one whose sentences all have
   * 20 or more is complex.
   */
  lemma SentenceComplexityShape(text: string)
    requires SentenceComplexityOf(text).SentenceStats?
    ensures var sc, sentences := SentenceComplexityOf(text), Sentences(text);
      && sc.sentenceCount == |sentences|
      && sc.shortestSentence as real <= sc.averageLength <= sc.longestSentence as real
      && (exists i | 0 <= i < |sentences| :: WordCount(sentences[i]) == sc.longestSentence)
      && (exists i | 0 <= i < |sentences| :: WordCount(sentences[i]) == sc.shortestSentence)
      && (sc.longestSentence < 10 ==> sc.complexity == Simple)
      && (sc.shortestSentence >= 20 ==> sc.complexity == Complex)
  {
    var sentences := Sentences(text);
    var lengths := SentenceLengths(sentences);
    SumBetween(lengths, Lowest(lengths), Highest(lengths));
    MeanBetween(Sum(lengths), |lengths|, Lowest(lengths), Highest(lengths));
    var hi :| 0 <= hi < |lengths| && lengths[hi] == Highest(lengths);
    var lo :| 0 <= lo < |lengths| && lengths[lo] == Lowest(lengths);
    assert WordCount(sentences[hi]) == Highest(lengths);
    assert WordCount(sentences[lo]) == Lowest(lengths);
  }

  // ---------------------------------------------------------------------------
  // The tone analysis and its suggestions

  /** The analysis `analyze_tone_and_style` reports. */
  datatype ToneAnalysis = ToneAnalysis(
    tone: Tone,
    formality: Formality,
    confidence: Confidence,
    enthusiasm: Enthusiasm,
    wordVariety: WordVariety,
    sentenceComplexity: SentenceComplexity)

  /** `analyze_tone_and_style` on the joined letter text. */
  function AnalyzeToneAndStyle(c: LetterContent): (a: ToneAnalysis)
    ensures a.enthusiasm == HighEnthusiasm <==> CountContained(Lower(ScoreText(c)), EnthusiasmWords) >= 3
    ensures a.formality == TooInformal <==> CountContained(ScoreText(c), Contractions) > 2
    ensures a.wordVariety.NoVarietyWords? <==> VarietyWords(ScoreText(c)) == []
    ensures a.sentenceComplexity.NoSentences? <==> Sentences(ScoreText(c)) == []
    ensures a.tone == ToneOf(ScoreText(c)) && a.confidence == ConfidenceOf(ScoreText(c))
  {
    var text := ScoreText(c);
    ToneAnalysis(ToneOf(text), FormalityOf(text), ConfidenceOf(text), EnthusiasmOf(text),
                 WordVarietyOf(text), SentenceComplexityOf(text))
  }

  /** The suggestions of `get_improvement_suggestions`, one constructor per message. */
  datatype ToneSuggestion =
    | UseFormalLanguage
    | StateConfidently
    | ShowInterest
    | IncreaseVariety
    | VarySentences
    | SimplifySentences

  datatype SuggestionPriority = HighPriority | MediumPriority | LowPriority

  function SuggestionPriorityOf(s: ToneSuggestion): SuggestionPriority
  {
    match s
    case UseFormalLanguage => HighPriority
    case StateConfidently => HighPriority
    case ShowInterest => MediumPriority
    case IncreaseVariety => MediumPriority
    case VarySentences => LowPriority
    case SimplifySentences => MediumPriority
  }

  /** The variety score the suggestions read: 0 for a report without long words. */
  function VarietyScore(v: WordVariety): real
  {
    if v.Variety? then v.varietyScore else 0.0
  }

  predicate IsComplexity(sc: SentenceComplexity, level: Complexity)
  {
    sc.SentenceStats? && sc.complexity == level
  }

  /** The tone, confidence and enthusiasm suggestions. */
  function AttitudeSuggestions(a: ToneAnalysis): (s: seq<ToneSuggestion>)
    ensures UseFormalLanguage in s <==> a.tone == TooCasual
    ensures StateConfidently in s <==> a.confidence == LacksConfidence
    ensures ShowInterest in s <==> a.enthusiasm == LowEnthusiasm
    ensures IncreaseVariety !in s && VarySentences !in s && SimplifySentences !in s
    ensures |s| <= 3
  {
    (if a.tone == TooCasual then [UseFormalLanguage] else [])
    + (if a.confidence == LacksConfidence then [StateConfidently] else [])
    + (if a.enthusiasm == LowEnthusiasm then [ShowInterest] else [])
  }

  /** The vocabulary and sentence-length suggestions. */
  function WritingSuggestions(a: ToneAnalysis): (s: seq<ToneSuggestion>)
    ensures IncreaseVariety in s <==> VarietyScore(a.wordVariety) < 60.0
    ensures VarySentences in s <==> IsComplexity(a.sentenceComplexity, Simple)
    ensures SimplifySentences in s <==> IsComplexity(a.sentenceComplexity, Complex)
    ensures UseFormalLanguage !in s && StateConfidently !in s && ShowInterest !in s
    ensures !(VarySentences in s && SimplifySentences in s)
    ensures |s| <= 2
  {
    (if VarietyScore(a.wordVariety) < 60.0 then [IncreaseVariety] else [])
    + (if IsComplexity(a.sentenceComplexity, Simple) then [VarySentences]
       else if IsComplexity(a.sentenceComplexity, Complex) then [SimplifySentences]
       else [])
  }

  /**
   * `get_improvement_suggestions`: one suggestion per weakness the analysis
   * shows, in the order they are checked, and at most one about sentence length.
   */
  function ImprovementSuggestions(a: ToneAnalysis): (s: seq<ToneSuggestion>)
    ensures UseFormalLanguage in s <==> a.tone == TooCasual
    ensures StateConfidently in s <==> a.confidence == LacksConfidence
    ensures ShowInterest in s <==> a.enthusiasm == LowEnthusiasm
    ensures IncreaseVariety in s <==> VarietyScore(a.wordVariety) < 60.0
    ensures VarySentences in s <==> IsComplexity(a.sentenceComplexity, Simple)
    ensures SimplifySentences in s <==> IsComplexity(a.sentenceComplexity, Complex)
    ensures !(VarySentences in s && SimplifySentences in s)
    ensures |s| <= 5
  {
    AttitudeSuggestions(a) + WritingSuggestions(a)
  }

  /**
   * A letter without long words is always told to vary its vocabulary; one
   * whose long words never repeat never is; a letter is told to show interest
   * exactly when none of the enthusiasm words occurs in it, to use formal
   * language exactly when its tone is too casual, and to state its
   * qualifications confidently exactly when it lacks confidence.
   */
  lemma LetterSuggestions(c: LetterContent)
    ensures var words, s := VarietyWords(ScoreText(c)), ImprovementSuggestions(AnalyzeToneAndStyle(c));
      && (UseFormalLanguage in s <==> ToneOf(ScoreText(c)) == TooCasual)
      && (StateConfidently in s <==> ConfidenceOf(ScoreText(c)) == LacksConfidence)
      && (words == [] ==> IncreaseVariety in s)
      && (words != [] && Distinct(words) ==> IncreaseVariety !in s)
      && (ShowInterest in s <==>
            forall j | 0 <= j < |EnthusiasmWords| :: !Contains(Lower(ScoreText(c)), EnthusiasmWords[j]))
  {
    var text := ScoreText(c);
    var a := AnalyzeToneAndStyle(c);
    assert a.wordVariety == WordVarietyOf(text) && a.enthusiasm == EnthusiasmOf(text);
    if VarietyWords(text) != [] {
      VarietyRange(text);
    }
  }
}
