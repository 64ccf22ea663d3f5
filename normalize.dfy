/**
 * The value normaliser of the exporter (filterNumber): it deletes every
 * character that is not an ASCII digit or a period, so that a reading such as
 * "65 C" or "12.50 W" becomes a bare number. It is a character filter, not a
 * number parser: "1.2.3" and ".." pass through, and a reading without any digit
 * or period becomes the empty string, which callers read as "no value".
 */
module Normalize {

  /** The characters the normaliser keeps: the class [0-9.]. */
  predicate IsNumeric(c: char) {
    '0' <= c <= '9' || c == '.'
  }

  predicate AllNumeric(s: string) {
    forall i :: 0 <= i < |s| ==> IsNumeric(s[i])
  }

  /** filterNumber: the characters of s that are digits or periods, in order. */
  function FilterNumber(s: string): (r: string)
    ensures AllNumeric(r)
    ensures |r| <= |s|
  {
    if s == [] then []
    else if IsNumeric(s[0]) then [s[0]] + FilterNumber(s[1..])
    else FilterNumber(s[1..])
  }

  /** How many characters of s are digits or periods. */
  function NumericCount(s: string): nat {
    if s == [] then 0
    else (if IsNumeric(s[0]) then 1 else 0) + NumericCount(s[1..])
  }

  /** t can be obtained from s by deleting characters (order kept). */
  predicate IsSubsequence(t: string, s: string) {
    if t == [] then true
    else if s == [] then false
    else if t[0] == s[0] then IsSubsequence(t[1..], s[1..])
    else IsSubsequence(t, s[1..])
  }

  /** The normalised value is a subsequence of the raw value. */
  lemma {:induction false} FilterIsSubsequence(s: string)
    ensures IsSubsequence(FilterNumber(s), s)
  {
    if s != [] {
      FilterIsSubsequence(s[1..]);
      if !IsNumeric(s[0]) {
        SubsequenceDropHead(FilterNumber(s[1..]), s);
      }
    }
  }

  lemma {:induction false} SubsequenceDropHead(t: string, s: string)
    requires s != [] && IsSubsequence(t, s[1..])
    requires t != [] ==> t[0] != s[0]
    ensures IsSubsequence(t, s)
  {
  }

  /** It keeps every digit and period: its length is the number of them in s. */
  lemma {:induction false} FilterLength(s: string)
    ensures |FilterNumber(s)| == NumericCount(s)
  {
    if s != [] {
      FilterLength(s[1..]);
    }
  }

  /** No subsequence made only of digits and periods is longer than that count. */
  lemma {:induction false} NumericSubsequenceBound(t: string, s: string)
    requires IsSubsequence(t, s) && AllNumeric(t)
    ensures |t| <= NumericCount(s)
  {
    if t != [] {
      assert s != [];
      if t[0] == s[0] {
        NumericSubsequenceBound(t[1..], s[1..]);
      } else {
        NumericSubsequenceBound(t, s[1..]);
      }
    }
  }

  /**
   * FilterNumber(s) is the ONLY subsequence of s that consists of digits and
   * periods and keeps all of them: together with FilterIsSubsequence and
   * FilterLength this characterises the normaliser without its definition.
   */
  lemma {:induction false} FilterUnique(t: string, s: string)
    requires IsSubsequence(t, s) && AllNumeric(t)
    requires |t| == NumericCount(s)
    ensures t == FilterNumber(s)
  {
    if s == [] {
    } else if IsNumeric(s[0]) {
      assert t != [];
      if t[0] == s[0] {
        FilterUnique(t[1..], s[1..]);
      } else {
        NumericSubsequenceBound(t, s[1..]);
        assert false;
      }
    } else if t != [] {
      assert t[0] != s[0] by { assert IsNumeric(t[0]); }
      FilterUnique(t, s[1..]);
    } else {
      FilterUnique(t, s[1..]);
    }
  }

  /** Per character: a digit or period occurs as often as in s, anything else never. */
  lemma {:induction false} FilterMultiplicity(s: string, c: char)
    ensures multiset(FilterNumber(s))[c] == if IsNumeric(c) then multiset(s)[c] else 0
  {
    if s != [] {
      FilterMultiplicity(s[1..], c);
      assert s == [s[0]] + s[1..];
      assert multiset(s) == multiset([s[0]]) + multiset(s[1..]);
    }
  }

  /** The result is empty exactly when s has no digit and no period. */
  lemma {:induction false} FilterEmptyIff(s: string)
    ensures FilterNumber(s) == [] <==> forall i :: 0 <= i < |s| ==> !IsNumeric(s[i])
  {
    if s != [] {
      FilterEmptyIff(s[1..]);
      if !IsNumeric(s[0]) && FilterNumber(s[1..]) == [] {
        forall i | 0 <= i < |s| ensures !IsNumeric(s[i]) {
          if i > 0 { assert s[i] == s[1..][i - 1]; }
        }
      }
      if forall i :: 0 <= i < |s| ==> !IsNumeric(s[i]) {
        forall i | 0 <= i < |s[1..]| ensures !IsNumeric(s[1..][i]) {
          assert s[1..][i] == s[i + 1];
        }
      }
    }
  }

  /** A value that is already a bare number is returned unchanged. */
  lemma {:induction false} FilterIdentity(s: string)
    requires AllNumeric(s)
    ensures FilterNumber(s) == s
  {
    if s != [] {
      assert AllNumeric(s[1..]) by {
        forall i | 0 <= i < |s[1..]| ensures IsNumeric(s[1..][i]) {
          assert s[1..][i] == s[i + 1];
        }
      }
      FilterIdentity(s[1..]);
    }
  }

  /** Normalising twice is normalising once. */
  lemma FilterIdempotent(s: string)
    ensures FilterNumber(FilterNumber(s)) == FilterNumber(s)
  {
    FilterIdentity(FilterNumber(s));
  }

  /** The filter works character by character, so it distributes over concatenation. */
  lemma {:induction false} FilterConcat(a: string, b: string)
    ensures FilterNumber(a + b) == FilterNumber(a) + FilterNumber(b)
  {
    if a == [] {
      assert a + b == b;
    } else {
      assert (a + b)[0] == a[0] && (a + b)[1..] == a[1..] + b;
      FilterConcat(a[1..], b);
    }
  }
}
