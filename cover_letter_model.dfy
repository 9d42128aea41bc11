/**
 * The stored `CoverLetter` record: its completeness summary over five fixed
 * sections and its word count.
 */
module CoverLetterModel {
  import opened Text
  import opened CoverLetterValidation

  /** A stored letter; a NULL job title, company or hiring manager is "". */
  datatype CoverLetterRecord = CoverLetterRecord(
    jobTitle: string,
    companyName: string,
    hiringManagerName: string,
    content: LetterContent)

  /** The five sections, in the order the summary lists them. */
  datatype Section = JobInformation | OpeningParagraph | BodyParagraphs | ClosingParagraph | PersonalTouch

  const Sections: seq<Section> := [JobInformation, OpeningParagraph, BodyParagraphs, ClosingParagraph, PersonalTouch]

  /** Whether one section counts as completed. */
  predicate Done(r: CoverLetterRecord, s: Section)
  {
    match s
    case JobInformation => r.jobTitle != [] && r.companyName != []
    case OpeningParagraph => Strip(r.content.opening) != []
    case BodyParagraphs => exists k | 0 <= k < |r.content.bodies| :: Strip(r.content.bodies[k]) != []
    case ClosingParagraph => Strip(r.content.closing) != []
    case PersonalTouch => r.hiringManagerName != []
  }

  /** Every section is listed, each at its own position. */
  lemma SectionsListed(s: Section)
    ensures s in Sections
  {
    match s
    case JobInformation => assert Sections[0] == s;
    case OpeningParagraph => assert Sections[1] == s;
    case BodyParagraphs => assert Sections[2] == s;
    case ClosingParagraph => assert Sections[3] == s;
    case PersonalTouch => assert Sections[4] == s;
  }

  /** How many of `secs` are completed. */
  function DoneCount(done: Section -> bool, secs: seq<Section>): (n: nat)
    ensures n <= |secs|
    ensures n == 0 <==> forall i | 0 <= i < |secs| :: !done(secs[i])
    ensures n == |secs| <==> forall i | 0 <= i < |secs| :: done(secs[i])
  {
    if secs == [] then 0
    else DoneCount(done, secs[..|secs| - 1]) + (if done(secs[|secs| - 1]) then 1 else 0)
  }

  /** The sections of `secs` that are not completed, in order; with the completed ones they make up `secs`. */
  function MissingIn(done: Section -> bool, secs: seq<Section>): (m: seq<Section>)
    ensures DoneCount(done, secs) + |m| == |secs|
    ensures forall s :: s in m <==> s in secs && !done(s)
    ensures DoneCount(done, secs) == 0 ==> m == secs
  {
    if secs == [] then []
    else
      var rest := MissingIn(done, secs[..|secs| - 1]);
      var last := secs[|secs| - 1];
      assert secs == secs[..|secs| - 1] + [last];
      if done(last) then rest else rest + [last]
  }

  /** The completeness summary of `calculate_completeness`. */
  datatype Summary = Summary(percentage: nat, completedSections: nat, totalSections: nat, missingSections: seq<Section>)

  /**
   * `calculate_completeness`: five sections, the percentage is the completed
   * share in steps of 20, and the missing list names exactly the sections
   * that are not completed.
   */
  function CalculateCompleteness(r: CoverLetterRecord): (sum: Summary)
    ensures sum.totalSections == 5
    ensures sum.completedSections + |sum.missingSections| == 5
    ensures forall s :: s in sum.missingSections <==> !Done(r, s)
    ensures sum.percentage == 20 * sum.completedSections
    ensures sum.percentage in {0, 20, 40, 60, 80, 100}
    ensures sum.percentage == 100 <==> forall s :: Done(r, s)
    ensures sum.percentage == 0 <==> forall s :: !Done(r, s)
  {
    var done := s => Done(r, s);
    var completed := DoneCount(done, Sections);
    var missing := MissingIn(done, Sections);
    forall s
      ensures s in Sections
    {
      SectionsListed(s);
    }
    assert completed * 100 / 5 == 20 * completed by {
      assert completed * 100 == (20 * completed) * 5;
    }
    assert (forall s :: done(s)) <==> forall i | 0 <= i < 5 :: done(Sections[i]);
    assert (forall s :: !done(s)) <==> forall i | 0 <= i < 5 :: !done(Sections[i]);
    Summary(completed * 100 / |Sections|, completed, |Sections|, missing)
  }

  /** The job information section needs both the job title and the company name. */
  lemma JobInformationNeedsBoth(r: CoverLetterRecord)
    ensures JobInformation in CalculateCompleteness(r).missingSections <==> r.jobTitle == [] || r.companyName == []
  {
  }

  /** A letter with no job data, no hiring manager and only blank paragraphs is 0% complete. */
  lemma {:induction false} EmptyLetterIsZero(r: CoverLetterRecord)
    requires r.jobTitle == [] && r.hiringManagerName == []
    requires IsBlank(r.content.opening) && IsBlank(r.content.closing)
    requires forall k | 0 <= k < |r.content.bodies| :: IsBlank(r.content.bodies[k])
    ensures CalculateCompleteness(r).percentage == 0
    ensures CalculateCompleteness(r).missingSections == Sections
  {
    StripEmptyIffBlank(r.content.opening);
    StripEmptyIffBlank(r.content.closing);
    forall k | 0 <= k < |r.content.bodies|
      ensures Strip(r.content.bodies[k]) == []
    {
      StripEmptyIffBlank(r.content.bodies[k]);
    }
    forall s
      ensures !Done(r, s)
    {
    }
  }

  /**
   * `get_word_count`: the same paragraph-by-paragraph sum as the validation
   * service's word count; the model has no failing step, so the 0 of the
   * exception path never arises.
   */
  method GetWordCount(r: CoverLetterRecord) returns (words: nat)
    ensures words == TotalWords(r.content)
    ensures words == 0 <==>
      (IsBlank(r.content.opening) && IsBlank(r.content.closing) &&
       forall k | 0 <= k < |r.content.bodies| :: IsBlank(r.content.bodies[k]))
  {
    words := CalculateWordCount(r.content);
    NoWordsIffAllBlank(r.content);
  }
}
