/** The small pieces of Python string semantics the assistant's routing rules rely on:
    `in` on strings, `lower()`, `strip()`, `startswith`, `replace` and `join`. */
module Common {

  datatype Option<T> = None | Some(value: T)

  /** Python's `str.isspace()` for one character; `strip()` and the regular expression
      class `\s` both use this set. */
  predicate IsSpace(c: char) {
    c == ' ' || ('\t' <= c <= '\r') || ('\U{1c}' <= c <= '\U{1f}') || c == '\U{85}' ||
    c == '\U{a0}' || c == '\U{1680}' || ('\U{2000}' <= c <= '\U{200a}') || c == '\U{2028}' ||
    c == '\U{2029}' || c == '\U{202f}' || c == '\U{205f}' || c == '\U{3000}'
  }

  predicate IsUpper(c: char) { 'A' <= c <= 'Z' }

  function LowerChar(c: char): (r: char)
    ensures IsUpper(c) ==> r as int == c as int + 32
    ensures !IsUpper(c) ==> r == c
  {
    if IsUpper(c) then (c as int + 32) as char else c
  }

  /** `s.lower()`, on the ASCII letters. */
  function Lower(s: string): (r: string)
    ensures |r| == |s|
    ensures forall i :: 0 <= i < |s| ==> r[i] == LowerChar(s[i])
  {
    seq(|s|, i requires 0 <= i < |s| => LowerChar(s[i]))
  }

  predicate StartsWith(s: string, prefix: string) {
    |prefix| <= |s| && s[..|prefix|] == prefix
  }

  predicate EndsWith(s: string, suffix: string) {
    |suffix| <= |s| && s[|s| - |suffix|..] == suffix
  }

  /** `w` occurs in `s` starting at index `i`. */
  predicate OccursAt(s: string, w: string, i: int) {
    0 <= i && i + |w| <= |s| && s[i..i + |w|] == w
  }

  /** Python's `w in s` for strings: `w` occurs in `s` as a contiguous substring. */
  predicate Contains(s: string, w: string) {
    exists i :: 0 <= i <= |s| - |w| && OccursAt(s, w, i)
  }

  /** `any(w in s for w in ws)` */
  predicate ContainsAny(s: string, ws: seq<string>) {
    exists k :: 0 <= k < |ws| && Contains(s, ws[k])
  }

  lemma ContainsAt(s: string, w: string, i: nat)
    requires OccursAt(s, w, i)
    ensures Contains(s, w)
  {
  }

  lemma StartsWithContains(s: string, w: string)
    requires StartsWith(s, w)
    ensures Contains(s, w)
  {
    assert OccursAt(s, w, 0);
  }

  /** A word that occurs inside a word that occurs in `s` occurs in `s`. */
  lemma ContainsTransitive(s: string, w: string, v: string)
    requires Contains(s, w) && Contains(w, v)
    ensures Contains(s, v)
  {
    var i :| 0 <= i <= |s| - |w| && OccursAt(s, w, i);
    var j :| 0 <= j <= |w| - |v| && OccursAt(w, v, j);
    forall k | 0 <= k < |v|
      ensures s[i + j + k] == v[k]
    {
      assert w[j..j + |v|][k] == v[k];
      assert s[i..i + |w|][j + k] == w[j + k];
    }
    assert s[i + j..i + j + |v|] == v;
    assert OccursAt(s, v, i + j);
  }

  /** Any piece of a word that occurs in `s` occurs in `s`. */
  lemma ContainsSlice(s: string, w: string, i: nat, j: nat)
    requires Contains(s, w) && i <= j <= |w|
    ensures Contains(s, w[i..j])
  {
    assert OccursAt(w, w[i..j], i);
    ContainsTransitive(s, w, w[i..j]);
  }

  /** A word with a character that `s` does not have does not occur in `s`. */
  lemma MissingCharNotContained(s: string, w: string, c: char)
    requires c in w && c !in s
    ensures !Contains(s, w)
  {
    var j :| 0 <= j < |w| && w[j] == c;
    forall i | 0 <= i && i + |w| <= |s|
      ensures !OccursAt(s, w, i)
    {
      assert s[i..i + |w|][j] == s[i + j];
    }
  }

  /** Lowercasing cannot create a character that is neither in `s` nor the lowercase of one of its
      capitals. */
  lemma LowerMissingChar(s: string, c: char)
    requires c !in s
    requires forall i :: 0 <= i < |s| ==> IsUpper(s[i]) ==> LowerChar(s[i]) != c
    ensures c !in Lower(s)
  {
    forall i | 0 <= i < |s|
      ensures Lower(s)[i] != c
    {
    }
  }

  lemma EndsWithConcat(a: string, b: string)
    ensures EndsWith(a + b, b)
  {
    assert (a + b)[|a|..] == b;
  }

  lemma LowerAppend(a: string, b: string)
    ensures Lower(a + b) == Lower(a) + Lower(b)
  {
  }

  /** Everything up to the first non-space character removed (the left half of `strip()`). */
  function TrimStart(s: string): (r: string)
    ensures |r| <= |s| && EndsWith(s, r)
    ensures r != [] ==> !IsSpace(r[0])
  {
    if s != [] && IsSpace(s[0]) then TrimStart(s[1..]) else s
  }

  /** Everything after the last non-space character removed (the right half of `strip()`). */
  function TrimEnd(s: string): (r: string)
    ensures |r| <= |s| && StartsWith(s, r)
    ensures r != [] ==> !IsSpace(r[|r| - 1])
  {
    if s != [] && IsSpace(s[|s| - 1]) then TrimEnd(s[..|s| - 1]) else s
  }

  /** `s.strip()` */
  function Strip(s: string): (r: string)
    ensures r != [] ==> !IsSpace(r[0]) && !IsSpace(r[|r| - 1])
    ensures |r| <= |s|
  {
    var t := TrimStart(s);
    var r := TrimEnd(t);
    assert r != [] ==> r[0] == t[0];
    r
  }

  lemma {:induction false} TrimStartDropsSpaces(s: string)
    ensures forall k :: 0 <= k < |s| - |TrimStart(s)| ==> IsSpace(s[k])
    decreases |s|
  {
    if s != [] && IsSpace(s[0]) {
      TrimStartDropsSpaces(s[1..]);
      forall k | 1 <= k < |s| - |TrimStart(s)|
        ensures IsSpace(s[k])
      {
        assert s[k] == s[1..][k - 1];
      }
    }
  }

  lemma {:induction false} TrimEndDropsSpaces(s: string)
    ensures forall k :: |TrimEnd(s)| <= k < |s| ==> IsSpace(s[k])
    decreases |s|
  {
    if s != [] && IsSpace(s[|s| - 1]) {
      TrimEndDropsSpaces(s[..|s| - 1]);
    }
  }

  /** `strip()` keeps a slice of `s` and removes only whitespace around it. */
  lemma StripIsSlice(s: string) returns (i: nat, j: nat)
    ensures i <= j <= |s| && Strip(s) == s[i..j]
    ensures forall k :: 0 <= k < i ==> IsSpace(s[k])
    ensures forall k :: j <= k < |s| ==> IsSpace(s[k])
  {
    var t := TrimStart(s);
    TrimStartDropsSpaces(s);
    TrimEndDropsSpaces(t);
    i := |s| - |t|;
    j := i + |TrimEnd(t)|;
    assert t == s[i..];
    assert forall k :: j <= k < |s| ==> s[k] == t[k - i];
  }

  /** A character that is not whitespace survives `strip()`. */
  lemma StripKeepsNonSpace(s: string, c: char)
    requires c in s && !IsSpace(c)
    ensures c in Strip(s)
  {
    var i, j := StripIsSlice(s);
    var k :| 0 <= k < |s| && s[k] == c;
    assert Strip(s)[k - i] == c;
  }

  /** `strip()` adds no character. */
  lemma StripWithin(s: string, c: char)
    requires c !in s
    ensures c !in Strip(s)
  {
    var i, j := StripIsSlice(s);
    forall m | 0 <= m < |Strip(s)|
      ensures Strip(s)[m] != c
    {
      assert Strip(s)[m] == s[i + m];
    }
  }

  /** A text that starts and ends with a non-space character, followed by one space character,
      strips to itself. */
  lemma StripDropsTrailingSpace(s: string, c: char)
    requires s != [] && !IsSpace(s[0]) && !IsSpace(s[|s| - 1]) && IsSpace(c)
    ensures Strip(s + [c]) == s
  {
    var t := s + [c];
    assert TrimStart(t) == t;
    assert t[..|t| - 1] == s;
    assert TrimEnd(t) == TrimEnd(s);
    assert TrimEnd(s) == s;
  }

  /** `s.replace(pattern, with)`: every occurrence, found left to right without overlaps, is
      replaced. */
  function ReplaceAll(s: string, pattern: string, with: string): string
    requires pattern != []
    decreases |s|
  {
    if |s| < |pattern| then s
    else if s[..|pattern|] == pattern then with + ReplaceAll(s[|pattern|..], pattern, with)
    else [s[0]] + ReplaceAll(s[1..], pattern, with)
  }

  /** A text that starts with the pattern has it replaced first. */
  lemma ReplaceAllHit(pattern: string, s: string, with: string)
    requires pattern != []
    ensures ReplaceAll(pattern + s, pattern, with) == with + ReplaceAll(s, pattern, with)
  {
    assert (pattern + s)[..|pattern|] == pattern;
    assert (pattern + s)[|pattern|..] == s;
  }

  /** A first character that cannot start the pattern is kept. */
  lemma ReplaceAllMiss(c: char, s: string, pattern: string, with: string)
    requires pattern != [] && c != pattern[0]
    ensures ReplaceAll([c] + s, pattern, with) == [c] + ReplaceAll(s, pattern, with)
  {
    assert ([c] + s)[1..] == s;
    if |[c] + s| >= |pattern| {
      assert ([c] + s)[..|pattern|][0] == c;
    } else {
      assert ReplaceAll(s, pattern, with) == s;
    }
  }

  /** A text without the pattern comes through the replacement unchanged. */
  lemma {:induction false} ReplaceAllWithoutMatch(s: string, pattern: string, with: string)
    requires pattern != [] && !Contains(s, pattern)
    ensures ReplaceAll(s, pattern, with) == s
    decreases |s|
  {
    if |s| >= |pattern| {
      if s[..|pattern|] == pattern {
        assert OccursAt(s, pattern, 0);
      }
      TailKeepsMissing(s, pattern);
      ReplaceAllWithoutMatch(s[1..], pattern, with);
    }
  }

  /** What `s` does not contain, its tail does not contain either. */
  lemma TailKeepsMissing(s: string, w: string)
    requires s != [] && !Contains(s, w)
    ensures !Contains(s[1..], w)
  {
    forall j | OccursAt(s[1..], w, j)
      ensures OccursAt(s, w, j + 1)
    {
      assert s[1..][j..j + |w|] == s[j + 1..j + 1 + |w|];
    }
  }

  /** What `s` does not contain, a prefix of it does not contain either. */
  lemma PrefixKeepsMissing(s: string, w: string, n: nat)
    requires n <= |s| && !Contains(s, w)
    ensures !Contains(s[..n], w)
  {
    forall j | OccursAt(s[..n], w, j)
      ensures OccursAt(s, w, j)
    {
      assert s[..n][j..j + |w|] == s[j..j + |w|];
    }
  }

  /** `sep.join(parts)` */
  function Join(parts: seq<string>, sep: string): string {
    if parts == [] then []
    else if |parts| == 1 then parts[0]
    else Join(parts[..|parts| - 1], sep) + sep + parts[|parts| - 1]
  }
}
