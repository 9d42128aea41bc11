/**
 * The stored `Resume` record's completeness summary: five sections read from
 * the content dictionary, each counted as completed, missing, or neither.
 */
module ResumeModel {
  import opened Text

  /**
   * A JSON value as the completeness loop sees it: absent or null, a string,
   * a list or dictionary of some size, or any other scalar with its
   * truthiness.
   */
  datatype Value = Null | Str(s: string) | List(size: nat) | Dict(size: nat) | Scalar(truthy: bool)

  /** Python truthiness. */
  predicate Truthy(v: Value)
  {
    match v
    case Null => false
    case Str(s) => s != []
    case List(n) => n > 0
    case Dict(n) => n > 0
    case Scalar(t) => t
  }

  /** The type checks that count a truthy section as completed. */
  predicate Completes(v: Value)
  {
    match v
    case Str(s) => Strip(s) != []
    case List(n) => n > 0
    case Dict(n) => n > 0
    case _ => false
  }

  lemma CompletesIsTruthy(v: Value)
    ensures Completes(v) ==> Truthy(v)
  {
  }

  /** `content.get(key, default)`. */
  function Get(content: map<string, Value>, key: string, default: Value): Value
  {
    if key in content then content[key] else default
  }

  /** The five sections with their values, in the order the loop visits them. */
  function Sections(content: map<string, Value>): (secs: seq<(string, Value)>)
    ensures |secs| == 5
  {
    [ ("personal_info", Get(content, "personal_info", Dict(0))),
      ("professional_summary", Get(content, "professional_summary", Null)),
      ("work_experience", Get(content, "work_experience", List(0))),
      ("education", Get(content, "education", List(0))),
      ("skills", Get(content, "skills", Dict(0))) ]
  }

  /** How many sections pass their type check. */
  function CompletedIn(secs: seq<(string, Value)>): (n: nat)
    ensures n <= |secs|
  {
    if secs == [] then 0
    else CompletedIn(secs[..|secs| - 1]) + (if Completes(secs[|secs| - 1].1) then 1 else 0)
  }

  /**
   * The names of the falsy sections, in order; together with the completed
   * ones they never exceed the number of sections.
   */
  function MissingIn(secs: seq<(string, Value)>): (names: seq<string>)
    ensures CompletedIn(secs) + |names| <= |secs|
    ensures forall name :: name in names <==> exists i | 0 <= i < |secs| :: secs[i].0 == name && !Truthy(secs[i].1)
  {
    if secs == [] then []
    else
      var init, last := secs[..|secs| - 1], secs[|secs| - 1];
      assert forall i | 0 <= i < |init| :: init[i] == secs[i];
      if Truthy(last.1) then MissingIn(init) else MissingIn(init) + [last.0]
  }

  datatype Completeness = Completeness(percentage: nat, completedSections: nat, totalSections: nat, missingSections: seq<string>)

  /**
   * `calculate_completeness`: one pass over the sections; a falsy section is
   * missing, a truthy one that passes its type check is completed, and the
   * percentage is the completed share in steps of 20.
   */
  method CalculateCompleteness(content: map<string, Value>) returns (c: Completeness)
    ensures c.totalSections == 5
    ensures c.completedSections == CompletedIn(Sections(content))
    ensures c.missingSections == MissingIn(Sections(content))
    ensures c.percentage == c.completedSections * 100 / 5
  {
    var secs := Sections(content);
    var completed := 0;
    var missing: seq<string> := [];
    var i := 0;
    while i < |secs|
      invariant 0 <= i <= |secs|
      invariant completed == CompletedIn(secs[..i])
      invariant missing == MissingIn(secs[..i])
    {
      var (name, data) := secs[i];
      if Truthy(data) {
        if data.List? && data.size > 0 {
          completed := completed + 1;
        } else if data.Dict? && data.size > 0 {
          completed := completed + 1;
        } else if data.Str? && Strip(data.s) != [] {
          completed := completed + 1;
        }
      } else {
        missing := missing + [name];
      }
      assert secs[..i + 1][..i] == secs[..i];
      i := i + 1;
    }
    assert secs[..i] == secs;
    c := Completeness(completed * 100 / |secs|, completed, |secs|, missing);
  }

  /** The percentage is a multiple of 20 between 0 and 100. */
  lemma PercentageSteps(content: map<string, Value>)
    ensures var n := CompletedIn(Sections(content));
      n * 100 / 5 == 20 * n && 20 * n in {0, 20, 40, 60, 80, 100}
  {
    var n := CompletedIn(Sections(content));
    assert n * 100 == (20 * n) * 5;
  }

  /** A section is listed as missing exactly when its value is falsy. */
  lemma MissingIffFalsy(content: map<string, Value>, k: nat)
    requires k < 5
    ensures Sections(content)[k].0 in MissingIn(Sections(content)) <==> !Truthy(Sections(content)[k].1)
  {
    var secs := Sections(content);
    forall i | 0 <= i < 5 && secs[i].0 == secs[k].0
      ensures i == k
    {
    }
  }

  /**
   * The completed and missing sections account for all five exactly when no
   * truthy section fails its type check.
   */
  lemma {:induction false} AccountedIff(secs: seq<(string, Value)>)
    ensures CompletedIn(secs) + |MissingIn(secs)| == |secs| <==>
      forall i | 0 <= i < |secs| :: Truthy(secs[i].1) ==> Completes(secs[i].1)
  {
    if secs != [] {
      var init := secs[..|secs| - 1];
      AccountedIff(init);
      assert forall i | 0 <= i < |init| :: init[i] == secs[i];
    }
  }

  /** A whitespace-only summary is neither completed nor missing, so fewer than five sections are accounted for. */
  lemma BlankSummaryUnaccounted(content: map<string, Value>, s: string)
    requires "professional_summary" in content && content["professional_summary"] == Str(s)
    requires s != [] && IsBlank(s)
    ensures CompletedIn(Sections(content)) + |MissingIn(Sections(content))| < 5
  {
    var secs := Sections(content);
    StripEmptyIffBlank(s);
    assert Truthy(secs[1].1) && !Completes(secs[1].1);
    AccountedIff(secs);
  }
}
