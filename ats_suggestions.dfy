/**
 * Optimisation suggestions of the ATS enhancement service: their impact
 * score, the descending sort by impact and the cut to the requested number.
 */
module AtsSuggestions {
  import opened Text
  import opened Basics

  /** One before/after suggestion; `keywordsAdded` lists the keywords it introduces. */
  datatype Suggestion = Suggestion(
    section: string,
    currentText: string,
    suggestedText: string,
    reason: string,
    keywordsAdded: seq<string>)

  /** The impact of a suggestion's section; any other section counts 50. */
  function BaseImpact(section: string): (b: nat)
    ensures 50 <= b <= 90
    ensures section !in {"professional_summary", "work_experience", "skills", "personal_info", "education"} ==> b == 50
  {
    if section == "professional_summary" then 85
    else if section == "work_experience" then 75
    else if section == "skills" then 70
    else if section == "personal_info" then 90
    else if section == "education" then 60
    else 50
  }

  /** Whether the reason names something missing, case-insensitively. */
  predicate NamesMissing(reason: string)
  {
    Contains(Lower(reason), "missing")
  }

  /**
   * `_calculate_suggestion_impact`: the section's impact, 20 more when the
   * reason mentions something missing, and 5 per keyword added.
   */
  function Impact(s: Suggestion): (n: nat)
    ensures n >= BaseImpact(s.section) + 5 * |s.keywordsAdded|
    ensures n <= BaseImpact(s.section) + 20 + 5 * |s.keywordsAdded|
    ensures n >= 50
  {
    BaseImpact(s.section) + (if NamesMissing(s.reason) then 20 else 0) + 5 * |s.keywordsAdded|
  }

  /** Each keyword added raises the impact by exactly 5, and a reason naming something missing by exactly 20. */
  lemma ImpactIncrements(s: Suggestion, k: string)
    ensures Impact(s.(keywordsAdded := s.keywordsAdded + [k])) == Impact(s) + 5
    ensures NamesMissing(s.reason) <==> Impact(s) == BaseImpact(s.section) + 20 + 5 * |s.keywordsAdded|
  {
  }

  /** The head of a sorted list keys at least as high as the rest of it with `x` added, when it keys at least as high as `x`. */
  lemma HeadKeyBoundsInsert<T>(x: T, ys: seq<T>, rest: seq<T>, key: T -> nat)
    requires ys != [] && SortedBy(ys, key) && key(ys[0]) >= key(x)
    requires multiset(rest) == multiset(ys[1..]) + multiset{x}
    ensures forall j | 0 <= j < |rest| :: key(ys[0]) >= key(rest[j])
  {
    forall j | 0 <= j < |rest|
      ensures key(ys[0]) >= key(rest[j])
    {
      assert rest[j] in multiset(rest);
      if rest[j] != x {
        assert rest[j] in multiset(ys[1..]);
        var m :| 0 <= m < |ys[1..]| && ys[1..][m] == rest[j];
        assert ys[m + 1] == rest[j];
      }
    }
  }

  /** Non-increasing `key` from front to back. */
  predicate SortedBy<T>(xs: seq<T>, key: T -> nat)
  {
    forall i, j | 0 <= i < j < |xs| :: key(xs[i]) >= key(xs[j])
  }

  /** Puts `x` after every entry of a sorted list whose key is at least its own. */
  function Insert<T>(x: T, ys: seq<T>, key: T -> nat): (r: seq<T>)
    requires SortedBy(ys, key)
    ensures SortedBy(r, key)
    ensures multiset(r) == multiset(ys) + multiset{x}
    ensures |r| == |ys| + 1
  {
    if ys == [] then [x]
    else if key(ys[0]) < key(x) then [x] + ys
    else
      var rest := Insert(x, ys[1..], key);
      assert ys == [ys[0]] + ys[1..];
      HeadKeyBoundsInsert(x, ys, rest, key);
      [ys[0]] + rest
  }

  /** `list.sort(key=key, reverse=True)`: insertion, one entry at a time. */
  method SortDescending<T>(xs: seq<T>, key: T -> nat) returns (ys: seq<T>)
    ensures SortedBy(ys, key)
    ensures multiset(ys) == multiset(xs)
    ensures |ys| == |xs|
  {
    ys := [];
    var i := 0;
    while i < |xs|
      invariant 0 <= i <= |xs|
      invariant SortedBy(ys, key)
      invariant multiset(ys) == multiset(xs[..i])
      invariant |ys| == i
    {
      ys := Insert(xs[i], ys, key);
      assert xs[..i + 1] == xs[..i] + [xs[i]];
      i := i + 1;
    }
    assert xs[..i] == xs;
  }

  /** How many entries Python's `xs[:n]` keeps of a list of length `len`. */
  function SliceLength(len: nat, n: int): (k: nat)
    ensures k <= len
    ensures n >= 0 ==> k == Min(n, len)
    ensures n < 0 ==> k == Max0(len + n)
  {
    if n >= 0 then Min(n, len) else Max0(len + n)
  }

  /**
   * The first `k` entries of a sorted list are a sub-multiset of the whole,
   * sorted, and none of the dropped entries outranks a kept one.
   */
  lemma TopPrefix<T>(ys: seq<T>, k: nat, key: T -> nat)
    requires SortedBy(ys, key) && k <= |ys|
    ensures SortedBy(ys[..k], key)
    ensures multiset(ys[..k]) <= multiset(ys)
    ensures forall x, y | x in ys[..k] && y in multiset(ys) - multiset(ys[..k]) :: key(x) >= key(y)
  {
    assert ys == ys[..k] + ys[k..];
    assert multiset(ys) - multiset(ys[..k]) == multiset(ys[k..]);
    forall x, y | x in ys[..k] && y in multiset(ys) - multiset(ys[..k])
      ensures key(x) >= key(y)
    {
      PrefixDominates(ys, k, key, x, y);
    }
  }

  /** In a sorted list, an entry before position `k` ranks at least as high as one from `k` on. */
  lemma PrefixDominates<T>(ys: seq<T>, k: nat, key: T -> nat, x: T, y: T)
    requires SortedBy(ys, key) && k <= |ys|
    requires x in ys[..k] && y in ys[k..]
    ensures key(x) >= key(y)
  {
    var i :| 0 <= i < k && ys[..k][i] == x;
    var j :| 0 <= j < |ys| - k && ys[k..][j] == y;
    assert ys[i] == x && ys[k + j] == y;
  }

  /**
   * The sort and the cut of `generate_optimization_suggestions`: the result
   * is sorted by impact, holds as many entries as `all[:n]` would, draws
   * them from `all`, and no entry left out has a higher impact than one
   * kept.
   */
  method TopSuggestions(all: seq<Suggestion>, n: int) returns (top: seq<Suggestion>)
    ensures SortedBy(top, Impact)
    ensures |top| == SliceLength(|all|, n)
    ensures multiset(top) <= multiset(all)
    ensures forall x, y | x in top && y in multiset(all) - multiset(top) :: Impact(x) >= Impact(y)
  {
    var sorted := SortDescending(all, Impact);
    var k := SliceLength(|sorted|, n);
    TopPrefix(sorted, k, Impact);
    top := sorted[..k];
  }
}
