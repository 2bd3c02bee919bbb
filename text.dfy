/**
 * The two string operations the search box relies on: `toLowerCase`,
 * restricted to ASCII letters, and `includes`, substring containment.
 */
module Text {

  /** ASCII case folding of one character; every other character is kept. */
  function LowerChar(c: char): (d: char)
    ensures !('A' <= d <= 'Z')
    ensures 'A' <= c <= 'Z' ==> d as int == c as int + 32
    ensures !('A' <= c <= 'Z') ==> d == c
  {
    if 'A' <= c <= 'Z' then (c as int + 32) as char else c
  }

  /** `s.toLowerCase()`, applied character by character. */
  function Lower(s: string): (r: string)
    ensures |r| == |s|
    ensures forall i :: 0 <= i < |r| ==> !('A' <= r[i] <= 'Z')
    ensures forall i :: 0 <= i < |s| && 'A' <= s[i] <= 'Z' ==> r[i] as int == s[i] as int + 32
    ensures forall i :: 0 <= i < |s| && !('A' <= s[i] <= 'Z') ==> r[i] == s[i]
  {
    seq(|s|, i requires 0 <= i < |s| => LowerChar(s[i]))
  }

  /** Lower-casing an already lower-cased string changes nothing. */
  lemma LowerIdempotent(s: string)
    ensures Lower(Lower(s)) == Lower(s)
  {
    var once := Lower(s);
    assert forall i :: 0 <= i < |once| ==> Lower(once)[i] == once[i];
  }

  /** `c` is the capital letter whose lower-case form is `d`. */
  predicate CapitalOf(c: char, d: char)
  {
    'A' <= c <= 'Z' && d as int == c as int + 32
  }

  /** `a` and `b` spell the same text, up to the case of ASCII letters. */
  predicate SameIgnoringCase(a: string, b: string)
  {
    |a| == |b| &&
    forall i :: 0 <= i < |a| ==> a[i] == b[i] || CapitalOf(a[i], b[i]) || CapitalOf(b[i], a[i])
  }

  /** Strings that differ only in the case of their letters lower-case to the same string. */
  lemma CaseVariantsLowerEqual(a: string, b: string)
    requires SameIgnoringCase(a, b)
    ensures Lower(a) == Lower(b)
  {
    assert forall i :: 0 <= i < |a| ==> Lower(a)[i] == Lower(b)[i];
  }

  /** Conversely, a string and its lower-cased form differ only in case. */
  lemma LowerIsCaseVariant(s: string)
    ensures SameIgnoringCase(s, Lower(s))
  {
  }

  /** `s.includes(sub)`: `sub` occurs in `s` as a contiguous block. */
  predicate Contains(s: string, sub: string)
    ensures Contains(s, sub) ==> |sub| <= |s|
    ensures |sub| == |s| ==> (Contains(s, sub) <==> s == sub)
  {
    sub <= s || (s != [] && Contains(s[1..], sub))
  }

  /** Every string contains the empty string. */
  lemma ContainsEmpty(s: string)
    ensures Contains(s, "")
  {
  }

  /** `Contains` means that `sub` occurs at some position of `s`. */
  lemma {:induction false} ContainsAt(s: string, sub: string) returns (at: nat)
    requires Contains(s, sub)
    ensures at + |sub| <= |s| && s[at..at + |sub|] == sub
  {
    if sub <= s {
      at := 0;
    } else {
      var rest := ContainsAt(s[1..], sub);
      at := rest + 1;
      assert s[at..at + |sub|] == s[1..][rest..rest + |sub|];
    }
  }

  /** Conversely, an occurrence of `sub` at any position makes `Contains` hold. */
  lemma {:induction false} OccurrenceContains(s: string, sub: string, at: nat)
    requires at + |sub| <= |s| && s[at..at + |sub|] == sub
    ensures Contains(s, sub)
  {
    if at > 0 {
      assert s[1..][at - 1..at - 1 + |sub|] == sub;
      OccurrenceContains(s[1..], sub, at - 1);
    } else {
      assert sub <= s;
    }
  }

  /** A string without the first character of `sub` cannot contain `sub`. */
  lemma {:induction false} MissingFirstCharNotContained(s: string, sub: string)
    requires sub != [] && sub[0] !in s
    ensures !Contains(s, sub)
  {
    if s != [] {
      MissingFirstCharNotContained(s[1..], sub);
    }
  }
}
