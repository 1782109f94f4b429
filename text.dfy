/** String operations the CRM relies on: ASCII case folding, substring search,
    binary (code-unit) string ordering, whitespace trimming and the
    first-occurrence replacement of JavaScript's `String.prototype.replace`
    with a string pattern. */
module Text {

  /** ASCII upper-case letters fold to lower case; every other character is kept. */
  function LowerChar(c: char): (d: char)
    ensures 'A' <= c <= 'Z' ==> d as int == c as int + 32
    ensures !('A' <= c <= 'Z') ==> d == c
  {
    if 'A' <= c <= 'Z' then (c as int + 32) as char else c
  }

  function Lower(s: string): (r: string)
    ensures |r| == |s|
  {
    if s == [] then [] else [LowerChar(s[0])] + Lower(s[1..])
  }

  /** Case folding works character by character. */
  lemma {:induction false} LowerAt(s: string)
    ensures forall i :: 0 <= i < |s| ==> Lower(s)[i] == LowerChar(s[i])
  {
    if s != [] {
      LowerAt(s[1..]);
      forall i | 1 <= i < |s| ensures Lower(s)[i] == LowerChar(s[i]) {
        assert Lower(s)[i] == Lower(s[1..])[i - 1];
      }
    }
  }

  /** `needle` occurs in `hay` starting at position `i`. */
  predicate OccursAt(hay: string, needle: string, i: int)
  {
    0 <= i && i + |needle| <= |hay| && hay[i..i + |needle|] == needle
  }

  /** `hay.includes(needle)` */
  predicate Includes(hay: string, needle: string)
  {
    exists i :: 0 <= i <= |hay| - |needle| && OccursAt(hay, needle, i)
  }

  /** `hay` contains `needle` when upper and lower case letters are not told apart. */
  predicate IncludesIgnoreCase(hay: string, needle: string)
  {
    Includes(Lower(hay), Lower(needle))
  }

  /** Strict lexicographic order on character codes (MongoDB's binary string comparison). */
  predicate LexLess(a: string, b: string)
  {
    if a == [] then b != []
    else if b == [] then false
    else if a[0] != b[0] then a[0] < b[0]
    else LexLess(a[1..], b[1..])
  }

  lemma {:induction false} LexLessIrreflexive(a: string)
    ensures !LexLess(a, a)
  {
    if a != [] {
      LexLessIrreflexive(a[1..]);
    }
  }

  lemma {:induction false} LexLessTotal(a: string, b: string)
    ensures a == b || LexLess(a, b) || LexLess(b, a)
  {
    if a != [] && b != [] && a[0] == b[0] {
      LexLessTotal(a[1..], b[1..]);
      if a[1..] == b[1..] {
        assert a == [a[0]] + a[1..] && b == [b[0]] + b[1..];
      }
    }
  }

  predicate IsSpace(c: char)
  {
    c == ' ' || c == '\t' || c == '\n' || c == '\r'
  }

  function TrimStart(s: string): (r: string)
    ensures |r| <= |s|
  {
    if s != [] && IsSpace(s[0]) then TrimStart(s[1..]) else s
  }

  /** `TrimStart` removes the leading white space and nothing else. */
  lemma {:induction false} TrimStartSpec(s: string)
    ensures TrimStart(s) == s[|s| - |TrimStart(s)|..]
    ensures TrimStart(s) != [] ==> !IsSpace(TrimStart(s)[0])
    ensures forall i :: 0 <= i < |s| - |TrimStart(s)| ==> IsSpace(s[i])
  {
    if s != [] && IsSpace(s[0]) {
      TrimStartSpec(s[1..]);
      forall i | 1 <= i < |s| - |TrimStart(s)| ensures IsSpace(s[i]) {
        assert s[i] == s[1..][i - 1];
      }
    }
  }

  function TrimEnd(s: string): (r: string)
    ensures |r| <= |s|
  {
    if s != [] && IsSpace(s[|s| - 1]) then TrimEnd(s[..|s| - 1]) else s
  }

  /** `TrimEnd` removes the trailing white space and nothing else. */
  lemma {:induction false} TrimEndSpec(s: string)
    ensures TrimEnd(s) == s[..|TrimEnd(s)|]
    ensures TrimEnd(s) != [] ==> !IsSpace(TrimEnd(s)[|TrimEnd(s)| - 1])
    ensures forall i :: |TrimEnd(s)| <= i < |s| ==> IsSpace(s[i])
  {
    if s != [] && IsSpace(s[|s| - 1]) {
      TrimEndSpec(s[..|s| - 1]);
      forall i | |TrimEnd(s)| <= i < |s| - 1 ensures IsSpace(s[i]) {
        assert s[i] == s[..|s| - 1][i];
      }
    }
  }

  /** The schema option `trim: true` (leading and trailing white space removed). */
  function Trim(s: string): (r: string)
    ensures |r| <= |s|
  {
    TrimEnd(TrimStart(s))
  }

  /** A trimmed text neither starts nor ends with white space. */
  lemma TrimSpec(s: string)
    ensures Trim(s) != [] ==> !IsSpace(Trim(s)[0]) && !IsSpace(Trim(s)[|Trim(s)| - 1])
  {
    var t := TrimStart(s);
    TrimStartSpec(s);
    TrimEndSpec(t);
    if Trim(s) != [] {
      assert Trim(s)[0] == t[0];
    }
  }

  /** `s.replace(pattern, replacement)` for a non-empty string pattern:
      only the first occurrence is replaced. */
  function ReplaceFirst(s: string, pattern: string, replacement: string): (r: string)
    requires pattern != []
    decreases |s|
  {
    if |pattern| <= |s| && s[..|pattern|] == pattern then replacement + s[|pattern|..]
    else if s == [] then []
    else [s[0]] + ReplaceFirst(s[1..], pattern, replacement)
  }

  /** Occurrences in the tail of a text are the occurrences in the text
      shifted by one. */
  lemma OccursAtTail(s: string, pattern: string, j: nat)
    requires s != []
    ensures OccursAt(s[1..], pattern, j) <==> OccursAt(s, pattern, j + 1)
  {
    if j + 1 + |pattern| <= |s| {
      assert s[1..][j..j + |pattern|] == s[j + 1..j + 1 + |pattern|];
    }
  }

  /** Without an occurrence of the pattern the text is returned unchanged. */
  lemma {:induction false} ReplaceFirstAbsent(s: string, pattern: string, replacement: string)
    requires pattern != []
    requires !Includes(s, pattern)
    ensures ReplaceFirst(s, pattern, replacement) == s
  {
    if s != [] {
      assert !OccursAt(s, pattern, 0);
      forall i | OccursAt(s[1..], pattern, i) ensures false {
        OccursAtTail(s, pattern, i);
      }
      ReplaceFirstAbsent(s[1..], pattern, replacement);
    }
  }

  /** With a first occurrence at `i`, exactly that occurrence is replaced and
      everything after it is left as it was. */
  lemma {:induction false} ReplaceFirstAt(s: string, pattern: string, replacement: string, i: nat)
    requires pattern != []
    requires OccursAt(s, pattern, i)
    requires forall j :: 0 <= j < i ==> !OccursAt(s, pattern, j)
    ensures ReplaceFirst(s, pattern, replacement) == s[..i] + replacement + s[i + |pattern|..]
  {
    if i == 0 {
      assert s[..|pattern|] == pattern;
      assert s[..i] == [];
    } else {
      assert !(|pattern| <= |s| && s[..|pattern|] == pattern) by {
        assert !OccursAt(s, pattern, 0);
      }
      OccursAtTail(s, pattern, i - 1);
      forall j | 0 <= j < i - 1 ensures !OccursAt(s[1..], pattern, j) {
        OccursAtTail(s, pattern, j);
      }
      ReplaceFirstAt(s[1..], pattern, replacement, i - 1);
      calc {
        ReplaceFirst(s, pattern, replacement);
        [s[0]] + ReplaceFirst(s[1..], pattern, replacement);
        [s[0]] + (s[1..][..i - 1] + replacement + s[1..][i - 1 + |pattern|..]);
        { assert [s[0]] + s[1..][..i - 1] == s[..i];
          assert s[1..][i - 1 + |pattern|..] == s[i + |pattern|..]; }
        s[..i] + replacement + s[i + |pattern|..];
      }
    }
  }

  /** A non-empty text stays non-empty when the replacement is non-empty. */
  lemma {:induction false} ReplaceFirstNonEmpty(s: string, pattern: string, replacement: string)
    requires pattern != [] && s != [] && replacement != []
    ensures ReplaceFirst(s, pattern, replacement) != []
  {
  }
}
