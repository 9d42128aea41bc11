/**
 * The Python `str` operations the résumé code relies on, over `seq<char>`.
 * Whitespace is Python's full `str.isspace()` set (which is also what `\s`
 * matches in a `re` pattern on `str`); letters, digits, `\w` and case mapping
 * are the ASCII ones.
 */
module Text {

  /** `str.isspace()` on a single character. */
  predicate IsSpace(c: char)
  {
    var n := c as int;
    (9 <= n <= 13) || (28 <= n <= 32) || n == 0x85 || n == 0xa0 || n == 0x1680
    || (0x2000 <= n <= 0x200a) || n == 0x2028 || n == 0x2029 || n == 0x202f
    || n == 0x205f || n == 0x3000
  }

  predicate IsDigit(c: char) { '0' <= c <= '9' }
  predicate IsUpper(c: char) { 'A' <= c <= 'Z' }
  predicate IsLowerLetter(c: char) { 'a' <= c <= 'z' }
  predicate IsLetter(c: char) { IsUpper(c) || IsLowerLetter(c) }

  /** The `\w` class of a regular expression. */
  predicate IsWordChar(c: char) { IsLetter(c) || IsDigit(c) || c == '_' }

  /** `\b` at position `i` of `s`: exactly one side of `i` is a word character. */
  predicate WordBoundary(s: string, i: int)
    requires 0 <= i <= |s|
  {
    (i > 0 && IsWordChar(s[i - 1])) != (i < |s| && IsWordChar(s[i]))
  }

  predicate AllDigits(s: string) { forall i :: 0 <= i < |s| ==> IsDigit(s[i]) }
  predicate AllLetters(s: string) { forall i :: 0 <= i < |s| ==> IsLetter(s[i]) }

  /** `str.isdigit()` and `str.isalpha()`: non-empty and every character qualifies. */
  predicate IsDigitString(s: string) { s != [] && AllDigits(s) }
  predicate IsAlphaString(s: string) { s != [] && AllLetters(s) }

  function LowerChar(c: char): char
  {
    if IsUpper(c) then (c as int + 32) as char else c
  }

  /** `str.lower()`. */
  function Lower(s: string): (r: string)
    ensures |r| == |s|
    ensures forall i :: 0 <= i < |s| ==> r[i] == LowerChar(s[i])
  {
    seq(|s|, i requires 0 <= i < |s| => LowerChar(s[i]))
  }

  /** Every string of a list lower-cased, as `[s.lower() for s in xs]`. */
  function LowerAll(xs: seq<string>): (r: seq<string>)
    ensures |r| == |xs| && forall i | 0 <= i < |xs| :: r[i] == Lower(xs[i])
  {
    if xs == [] then [] else LowerAll(xs[..|xs| - 1]) + [Lower(xs[|xs| - 1])]
  }

  /** Case-insensitive equality, as `a.lower() == b.lower()`. */
  predicate EqualsIgnoreCase(a: string, b: string) { Lower(a) == Lower(b) }

  predicate IsBlank(s: string) { forall i :: 0 <= i < |s| ==> IsSpace(s[i]) }

  function TrimStart(s: string): (r: string)
    ensures |r| <= |s| && r == s[|s| - |r|..]
    ensures r != [] ==> !IsSpace(r[0])
    ensures IsBlank(s[..|s| - |r|])
  {
    if s != [] && IsSpace(s[0]) then
      var r := TrimStart(s[1..]);
      assert r == s[|s| - |r|..];
      BlankCons(s, |s| - |r|);
      r
    else s
  }

  function TrimEnd(s: string): (r: string)
    ensures |r| <= |s| && r == s[..|r|]
    ensures r != [] ==> !IsSpace(r[|r| - 1])
    ensures IsBlank(s[|r|..])
  {
    if s != [] && IsSpace(s[|s| - 1]) then
      var r := TrimEnd(s[..|s| - 1]);
      BlankSnoc(s, |r|);
      r
    else s
  }

  /** A blank run after a leading space is still blank with the space. */
  lemma BlankCons(s: string, k: nat)
    requires 1 <= k <= |s| && IsSpace(s[0]) && IsBlank(s[1..][..k - 1])
    ensures IsBlank(s[..k])
  {
    forall i | 1 <= i < k
      ensures IsSpace(s[i])
    {
      assert s[i] == s[1..][..k - 1][i - 1];
    }
  }

  /** A blank run before a trailing space is still blank with the space. */
  lemma BlankSnoc(s: string, k: nat)
    requires k < |s| && IsSpace(s[|s| - 1]) && IsBlank(s[..|s| - 1][k..])
    ensures IsBlank(s[k..])
  {
    forall i | k <= i < |s| - 1
      ensures IsSpace(s[i])
    {
      assert s[i] == s[..|s| - 1][k..][i - k];
    }
  }

  /** `str.strip()` with no argument. */
  function Strip(s: string): string
  {
    TrimEnd(TrimStart(s))
  }

  /** `s.strip()` is empty exactly when `s` consists of whitespace only. */
  lemma StripEmptyIffBlank(s: string)
    ensures Strip(s) == [] <==> IsBlank(s)
  {
    var t := TrimStart(s);
    assert s == s[..|s| - |t|] + t;
  }

  /** Length of the run of non-space characters that starts `s`. */
  function TokenLength(s: string): (k: nat)
    requires s != [] && !IsSpace(s[0])
    ensures 1 <= k <= |s|
    ensures forall i :: 0 <= i < k ==> !IsSpace(s[i])
    ensures k < |s| ==> IsSpace(s[k])
  {
    if |s| == 1 || IsSpace(s[1]) then 1 else 1 + TokenLength(s[1..])
  }

  predicate IsToken(w: string) { w != [] && forall i :: 0 <= i < |w| ==> !IsSpace(w[i]) }

  /** `str.split()` with no separator: the maximal runs of non-space characters. */
  function Words(s: string): (ws: seq<string>)
    ensures forall w :: w in ws ==> IsToken(w)
    ensures |ws| <= |s|
    decreases |s|
  {
    if s == [] then []
    else if IsSpace(s[0]) then Words(s[1..])
    else
      var k := TokenLength(s);
      [s[..k]] + Words(s[k..])
  }

  function WordCount(s: string): nat { |Words(s)| }

  /** A string has no words exactly when it is blank. */
  lemma {:induction false} NoWordsIffBlank(s: string)
    ensures Words(s) == [] <==> IsBlank(s)
    decreases |s|
  {
    if s != [] && IsSpace(s[0]) {
      NoWordsIffBlank(s[1..]);
      assert forall i :: 0 < i < |s| ==> s[i] == s[1..][i - 1];
    }
  }

  /** `[x for x in xs if x]`. */
  function NonEmptyStrings(xs: seq<string>): (r: seq<string>)
    ensures forall x :: x in r ==> x != [] && x in xs
  {
    if xs == [] then []
    else
      var last := if xs[|xs| - 1] != [] then [xs[|xs| - 1]] else [];
      NonEmptyStrings(xs[..|xs| - 1]) + last
  }

  /** `[s]` when `s` is truthy. */
  function IfPresent(s: string): seq<string>
  {
    if s != [] then [s] else []
  }

  /** `sep.join(parts)`. */
  function Join(parts: seq<string>, sep: string): string
  {
    if parts == [] then []
    else if |parts| == 1 then parts[0]
    else parts[0] + sep + Join(parts[1..], sep)
  }

  lemma JoinStartsWithFirst(kept: seq<string>)
    requires kept != []
    ensures |kept[0]| <= |Join(kept, " ")| && Join(kept, " ")[..|kept[0]|] == kept[0]
  {
    if |kept| > 1 {
      assert Join(kept, " ") == kept[0] + (" " + Join(kept[1..], " "));
    }
  }

  /** `re.match(r'^\d{4}-\d{2}', s)`: four digits, a dash and two digits open the string. */
  predicate StartsWithYearMonth(s: string)
  {
    |s| >= 7 && IsDigit(s[0]) && IsDigit(s[1]) && IsDigit(s[2]) && IsDigit(s[3])
    && s[4] == '-' && IsDigit(s[5]) && IsDigit(s[6])
  }

  predicate StartsWith(s: string, prefix: string)
  {
    |prefix| <= |s| && s[..|prefix|] == prefix
  }

  predicate EndsWith(s: string, suffix: string)
  {
    |suffix| <= |s| && s[|s| - |suffix|..] == suffix
  }

  predicate OccursAt(s: string, sub: string, i: int)
  {
    0 <= i && i + |sub| <= |s| && s[i..i + |sub|] == sub
  }

  /** Python's `sub in s`. */
  predicate Contains(s: string, sub: string)
  {
    exists i | 0 <= i <= |s| - |sub| :: OccursAt(s, sub, i)
  }

  function CountDigits(s: string): (n: nat)
    ensures n <= |s|
  {
    if s == [] then 0 else (if IsDigit(s[0]) then 1 else 0) + CountDigits(s[1..])
  }

  predicate HasDigit(s: string) { exists i | 0 <= i < |s| :: IsDigit(s[i]) }

  /** Non-overlapping occurrences of a non-empty `sub`, scanning left to right. */
  function CountNonEmpty(s: string, sub: string): nat
    requires sub != []
    decreases |s|
  {
    if |s| < |sub| then 0
    else if s[..|sub|] == sub then 1 + CountNonEmpty(s[|sub|..], sub)
    else CountNonEmpty(s[1..], sub)
  }

  /** Python's `s.count(sub)`; the empty string occurs `len(s) + 1` times. */
  function Count(s: string, sub: string): nat
  {
    if sub == [] then |s| + 1 else CountNonEmpty(s, sub)
  }

  /** `s.rstrip(chars)`. */
  function TrimEndChars(s: string, chars: set<char>): (r: string)
    ensures |r| <= |s| && r == s[..|r|]
  {
    if s != [] && s[|s| - 1] in chars then TrimEndChars(s[..|s| - 1], chars) else s
  }

  /**
   * `re.split` on single separator characters: the pieces between separators,
   * including the empty ones at the ends and between adjacent separators.
   */
  function Pieces(s: string, seps: set<char>): (ps: seq<string>)
    ensures |ps| >= 1
  {
    if s == [] then [[]]
    else
      var rest := Pieces(s[1..], seps);
      if s[0] in seps then [[]] + rest else [[s[0]] + rest[0]] + rest[1..]
  }

  /** `[p.strip() for p in parts if p and p.strip()]`. */
  function KeptParts(parts: seq<string>): seq<string>
  {
    if parts == [] then []
    else
      var last := Strip(parts[|parts| - 1]);
      KeptParts(parts[..|parts| - 1]) + (if last != [] then [last] else [])
  }

  const SentenceEnders: set<char> := {'.', '!', '?'}

  /** `[s.strip() for s in re.split(r'[.!?]+', text) if s.strip()]`. */
  function Sentences(text: string): seq<string>
  {
    KeptParts(Pieces(text, SentenceEnders))
  }

  function DigitChar(d: nat): char
    requires d < 10
  {
    ('0' as int + d) as char
  }

  /** `str(n)` for a natural number. */
  function NatToString(n: nat): (s: string)
    ensures s != [] && AllDigits(s)
    decreases n
  {
    if n < 10 then [DigitChar(n)] else NatToString(n / 10) + [DigitChar(n % 10)]
  }

  /** The value of a string of decimal digits. */
  function DigitsValue(s: string): nat
    requires AllDigits(s)
  {
    if s == [] then 0 else 10 * DigitsValue(s[..|s| - 1]) + (s[|s| - 1] as int - '0' as int)
  }

  /** Reading back the decimal rendering of `n` gives `n`. */
  lemma {:induction false} DigitsValueOfNatToString(n: nat)
    ensures DigitsValue(NatToString(n)) == n
    decreases n
  {
    if n >= 10 {
      DigitsValueOfNatToString(n / 10);
      var s := NatToString(n);
      assert s[..|s| - 1] == NatToString(n / 10);
    }
  }

  /** Lower-casing neither creates nor removes whitespace. */
  lemma LowerBlankIff(s: string)
    ensures IsBlank(Lower(s)) <==> IsBlank(s)
  {
    if !IsBlank(s) {
      var i :| 0 <= i < |s| && !IsSpace(s[i]);
      assert !IsSpace(Lower(s)[i]);
    }
  }

  /** Every word of `s.split()` occurs in `s`. */
  lemma {:induction false} WordsOccur(s: string, k: nat)
    requires k < |Words(s)|
    ensures exists i :: OccursAt(s, Words(s)[k], i)
    decreases |s|
  {
    if IsSpace(s[0]) {
      assert Words(s) == Words(s[1..]);
      WordsOccur(s[1..], k);
      var i :| OccursAt(s[1..], Words(s[1..])[k], i);
      OccursShifted(s, 1, Words(s)[k], i);
    } else {
      var t := TokenLength(s);
      if k == 0 {
        assert OccursAt(s, Words(s)[0], 0);
      } else {
        assert Words(s)[k] == Words(s[t..])[k - 1];
        WordsOccur(s[t..], k - 1);
        var i :| OccursAt(s[t..], Words(s[t..])[k - 1], i);
        OccursShifted(s, t, Words(s)[k], i);
      }
    }
  }

  /** An occurrence in a suffix of `s` is an occurrence in `s`, shifted. */
  lemma OccursShifted(s: string, d: nat, w: string, i: int)
    requires d <= |s| && OccursAt(s[d..], w, i)
    ensures OccursAt(s, w, i + d)
  {
    assert s[i + d..i + d + |w|] == s[d..][i..i + |w|];
  }

  /** A prefix of an occurring string occurs at the same place. */
  lemma PrefixOccurs(s: string, w: string, n: nat, i: int)
    requires OccursAt(s, w, i) && n <= |w|
    ensures OccursAt(s, w[..n], i)
  {
    assert s[i..i + n] == s[i..i + |w|][..n];
  }

  /**
   * `any(t in str(entry).lower() for t in terms)` for an entry whose field
   * values are `values`: some term occurs in some lower-cased value.
   */
  predicate MentionsAny(values: seq<string>, terms: seq<string>)
  {
    exists i, j | 0 <= i < |values| && 0 <= j < |terms| :: Contains(Lower(values[i]), terms[j])
  }
}
