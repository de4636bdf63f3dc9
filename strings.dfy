/** The Python string operations the report builder relies on: `str.lower`,
    `str.strip`, the `in` substring test, `str.replace` and `"\n".join`. */
module Strings {

  /** `str.lower` on one character, for the Latin and Cyrillic capitals. */
  function LowerChar(c: char): (d: char)
    ensures d == c || ('A' <= c <= 'Z') || ('Ѐ' <= c <= 'Я')
  {
    if 'A' <= c <= 'Z' then (c as int + 32) as char
    else if 'А' <= c <= 'Я' then (c as int + 32) as char
    else if 'Ѐ' <= c <= 'Џ' then (c as int + 80) as char
    else c
  }

  /** `str.lower`: every character lowered in place. */
  function Lower(s: string): (r: string)
    ensures |r| == |s|
    ensures forall i :: 0 <= i < |s| ==> r[i] == LowerChar(s[i])
  {
    if s == [] then [] else [LowerChar(s[0])] + Lower(s[1..])
  }

  /** Lowering twice is lowering once. */
  lemma LowerIdempotent(s: string)
    ensures Lower(Lower(s)) == Lower(s)
  {
    var l := Lower(s);
    assert forall i :: 0 <= i < |l| ==> Lower(l)[i] == l[i];
  }

  /** The characters Python's `str.isspace` accepts. */
  predicate IsSpace(c: char)
  {
    c == ' ' || ('\t' <= c <= '\r') || ('\U{1C}' <= c <= '\U{1F}') || c == '\U{85}' || c == '\U{A0}'
    || c == '\U{1680}' || ('\U{2000}' <= c <= '\U{200A}') || c == '\U{2028}' || c == '\U{2029}'
    || c == '\U{202F}' || c == '\U{205F}' || c == '\U{3000}'
  }

  /** The index of the first non-whitespace character at or after `i`, or `|s|`. */
  function SkipSpaces(s: string, i: nat): (k: nat)
    requires i <= |s|
    ensures i <= k <= |s|
    ensures k < |s| ==> !IsSpace(s[k])
    ensures forall m :: i <= m < k ==> IsSpace(s[m])
    decreases |s| - i
  {
    if i < |s| && IsSpace(s[i]) then SkipSpaces(s, i + 1) else i
  }

  /** One past the last non-whitespace character before `j`, or 0. */
  function BackSpaces(s: string, j: nat): (k: nat)
    requires j <= |s|
    ensures k <= j
    ensures k > 0 ==> !IsSpace(s[k - 1])
    ensures forall m :: k <= m < j ==> IsSpace(s[m])
  {
    if j > 0 && IsSpace(s[j - 1]) then BackSpaces(s, j - 1) else j
  }

  /** `s` is `pre + mid + post` with only whitespace in `pre` and `post`. */
  predicate Padded(s: string, i: nat, j: nat)
  {
    i <= j <= |s|
    && (forall k :: 0 <= k < i ==> IsSpace(s[k]))
    && (forall k :: j <= k < |s| ==> IsSpace(s[k]))
  }

  /** `str.strip()`: the slice between the leading and the trailing
      whitespace. It is a slice of `s` with only whitespace cut off on either
      side, and it neither starts nor ends with whitespace; together these
      fix it. */
  function Strip(s: string): (r: string)
    ensures exists i: nat, j: nat :: Padded(s, i, j) && r == s[i..j]
    ensures r == [] || (!IsSpace(r[0]) && !IsSpace(r[|r| - 1]))
  {
    var i, j := SkipSpaces(s, 0), BackSpaces(s, |s|);
    if i < j then s[i..j] else assert Padded(s, i, i); []
  }

  /** A string that neither starts nor ends with whitespace is its own strip. */
  lemma StripUnchanged(s: string)
    requires s == [] || (!IsSpace(s[0]) && !IsSpace(s[|s| - 1]))
    ensures Strip(s) == s
  {
    StripPadded(s, 0, |s|);
    assert s[0..|s|] == s;
  }

  /** Stripping keeps exactly the part between whitespace padding, as long as
      that part neither starts nor ends with whitespace: whitespace only
      strips to the empty string, and the inside of a padded word is kept
      whole. */
  lemma StripPadded(s: string, i: nat, j: nat)
    requires Padded(s, i, j)
    requires i == j || (!IsSpace(s[i]) && !IsSpace(s[j - 1]))
    ensures Strip(s) == s[i..j]
  {
    var r := Strip(s);
    var a: nat, b: nat :| Padded(s, a, b) && r == s[a..b];
    if a < b {
      assert r[0] == s[a] && r[|r| - 1] == s[b - 1];
    }
  }

  /** Stripping twice is stripping once. */
  lemma StripIdempotent(s: string)
    ensures Strip(Strip(s)) == Strip(s)
  {
    StripUnchanged(Strip(s));
  }

  /** `p` is a prefix of `s`. */
  predicate StartsWith(s: string, p: string)
  {
    |p| <= |s| && s[..|p|] == p
  }

  /** Python's `sub in s`. */
  predicate Contains(s: string, sub: string)
    decreases |s|
  {
    StartsWith(s, sub) || (s != [] && Contains(s[1..], sub))
  }

  /** `sub` occurs in `s` at position `i`. */
  predicate OccursAt(s: string, sub: string, i: nat)
  {
    i + |sub| <= |s| && s[i..i + |sub|] == sub
  }

  /** `Contains` holds exactly when `sub` occurs at some position. */
  lemma {:induction false} ContainsIff(s: string, sub: string)
    ensures Contains(s, sub) <==> exists i: nat :: OccursAt(s, sub, i)
    decreases |s|
  {
    if StartsWith(s, sub) {
      assert OccursAt(s, sub, 0);
    } else if s == [] {
      forall i: nat ensures !OccursAt(s, sub, i) {
      }
    } else {
      ContainsIff(s[1..], sub);
      if Contains(s[1..], sub) {
        var i: nat :| OccursAt(s[1..], sub, i);
        assert s[1..][i..i + |sub|] == s[i + 1..i + 1 + |sub|];
        assert OccursAt(s, sub, i + 1);
      } else {
        forall i: nat | OccursAt(s, sub, i) ensures false {
          if i != 0 {
            assert s[1..][i - 1..i - 1 + |sub|] == s[i..i + |sub|];
            assert OccursAt(s[1..], sub, i - 1);
          }
        }
      }
    }
  }

  /** A needle that starts with a character absent from `s` never occurs in `s`. */
  lemma {:induction false} NotContainsHead(s: string, sub: string)
    requires sub != [] && sub[0] !in s
    ensures !Contains(s, sub)
    decreases |s|
  {
    if s != [] {
      assert s[0] != sub[0];
      NotContainsHead(s[1..], sub);
    }
  }

  /** Python's `s.replace(pat, rep)`: every non-overlapping occurrence of `pat`,
      scanned left to right, replaced by `rep`. */
  function ReplaceAll(s: string, pat: string, rep: string): (r: string)
    requires pat != []
    ensures !Contains(s, pat) ==> r == s
    decreases |s|
  {
    if s == [] then []
    else if StartsWith(s, pat) then rep + ReplaceAll(s[|pat|..], pat, rep)
    else [s[0]] + ReplaceAll(s[1..], pat, rep)
  }

  /** A string that begins with `pat` has that first occurrence replaced and
      the rest processed on its own. */
  lemma ReplaceAllAfterPrefix(t: string, pat: string, rep: string)
    requires pat != []
    ensures ReplaceAll(pat + t, pat, rep) == rep + ReplaceAll(t, pat, rep)
  {
    assert StartsWith(pat + t, pat);
    assert (pat + t)[|pat|..] == t;
  }

  /** `s` with every occurrence of the character `a` turned into `b`. */
  function MapChar(s: string, a: char, b: char): (r: string)
    ensures |r| == |s|
    ensures forall i :: 0 <= i < |s| ==> r[i] == (if s[i] == a then b else s[i])
  {
    if s == [] then [] else [if s[0] == a then b else s[0]] + MapChar(s[1..], a, b)
  }

  /** Substitution leaves a string without `a` as it is. */
  lemma MapCharAbsent(s: string, a: char, b: char)
    requires a !in s
    ensures MapChar(s, a, b) == s
  {
    assert forall i :: 0 <= i < |s| ==> s[i] in s;
  }

  /** Substituting in the middle part only, when the outer parts hold no `a`. */
  lemma MapCharMiddle(s: string, m: string, t: string, a: char, b: char)
    requires a !in s && a !in t
    ensures MapChar(s + m + t, a, b) == s + MapChar(m, a, b) + t
  {
    MapCharConcat(s + m, t, a, b);
    MapCharConcat(s, m, a, b);
    MapCharAbsent(s, a, b);
    MapCharAbsent(t, a, b);
  }

  /** Substitution distributes over concatenation. */
  lemma MapCharConcat(s: string, t: string, a: char, b: char)
    ensures MapChar(s + t, a, b) == MapChar(s, a, b) + MapChar(t, a, b)
  {
  }

  /** Replacing a one-character pattern by a one-character replacement is a
      character-by-character substitution. */
  lemma {:induction false} ReplaceAllChar(s: string, a: char, b: char)
    ensures ReplaceAll(s, [a], [b]) == MapChar(s, a, b)
    decreases |s|
  {
    if s != [] {
      ReplaceAllChar(s[1..], a, b);
      if s[0] == a {
        assert StartsWith(s, [a]);
      } else {
        assert !StartsWith(s, [a]);
      }
    }
  }

  /** `s` with every occurrence of the character `c` removed. */
  function Without(s: string, c: char): (r: string)
    ensures c !in r
    ensures |r| <= |s|
  {
    if s == [] then [] else (if s[0] == c then [] else [s[0]]) + Without(s[1..], c)
  }

  /** Removing characters distributes over concatenation. */
  lemma {:induction false} WithoutConcat(s: string, t: string, c: char)
    ensures Without(s + t, c) == Without(s, c) + Without(t, c)
    decreases |s|
  {
    if s == [] {
      assert s + t == t;
    } else {
      assert (s + t)[1..] == s[1..] + t;
      WithoutConcat(s[1..], t, c);
    }
  }

  /** A string without `c` is unchanged by removing `c`. */
  lemma {:induction false} WithoutAbsent(s: string, c: char)
    requires c !in s
    ensures Without(s, c) == s
    decreases |s|
  {
    if s != [] {
      WithoutAbsent(s[1..], c);
      assert s == [s[0]] + s[1..];
    }
  }

  /** Turning `a` into `b` and then removing `b` is the same as removing `a`,
      as long as `b` did not occur before. */
  lemma {:induction false} WithoutMapChar(s: string, a: char, b: char)
    requires b !in s
    ensures Without(MapChar(s, a, b), b) == Without(s, a)
    decreases |s|
  {
    if s != [] {
      WithoutMapChar(s[1..], a, b);
      assert MapChar(s, a, b)[1..] == MapChar(s[1..], a, b);
    }
  }

  /** `sep.join(xs)`. */
  function Join(xs: seq<string>, sep: string): string
  {
    if xs == [] then [] else if |xs| == 1 then xs[0] else xs[0] + sep + Join(xs[1..], sep)
  }
}
