/**
 * The few Python `str` operations the modelled code relies on, stated over
 * `seq<char>`: prefix tests, substring search, `split`, `strip`, `lower`
 * (ASCII letters only) and `replace`.
 */
module Strings {
  import opened Wrappers

  /** Python's `str.isspace()` for a single character. */
  predicate IsSpace(c: char) {
    || ('\t' <= c <= '\r')
    || ('\U{1C}' <= c <= '\U{1F}')
    || c == ' ' || c == '\U{85}' || c == '\U{A0}' || c == '\U{1680}'
    || ('\U{2000}' <= c <= '\U{200A}')
    || c == '\U{2028}' || c == '\U{2029}' || c == '\U{202F}' || c == '\U{205F}' || c == '\U{3000}'
  }

  predicate StartsWith(s: string, prefix: string) {
    |prefix| <= |s| && s[..|prefix|] == prefix
  }

  /** `pattern in s` for strings: some window of `s` spells `pattern`. */
  predicate Contains(s: string, pattern: string)
    decreases |s|
  {
    StartsWith(s, pattern) || (|s| > 0 && Contains(s[1..], pattern))
  }

  lemma {:induction false} ContainsAt(s: string, pattern: string, i: nat)
    requires i + |pattern| <= |s| && s[i..i + |pattern|] == pattern
    ensures Contains(s, pattern)
    decreases i
  {
    if i > 0 {
      assert s[1..][i - 1..i - 1 + |pattern|] == s[i..i + |pattern|];
      ContainsAt(s[1..], pattern, i - 1);
    }
  }

  lemma {:induction false} ContainsWitness(s: string, pattern: string) returns (i: nat)
    requires Contains(s, pattern)
    ensures i + |pattern| <= |s| && s[i..i + |pattern|] == pattern
    decreases |s|
  {
    if StartsWith(s, pattern) {
      i := 0;
    } else {
      var j := ContainsWitness(s[1..], pattern);
      assert s[1..][j..j + |pattern|] == s[j + 1..j + 1 + |pattern|];
      i := j + 1;
    }
  }

  /**
   * A pattern none of whose characters can occur in `mid` is found in
   * `left + mid + right` only inside `left` or inside `right`.
   */
  lemma {:induction false} ContainsAroundForeign(left: string, mid: string, right: string, pattern: string)
    requires |mid| > 0 && |pattern| > 0
    requires forall k :: 0 <= k < |mid| ==> mid[k] !in pattern
    ensures Contains(left + mid + right, pattern) <==> Contains(left, pattern) || Contains(right, pattern)
  {
    if Contains(left + mid + right, pattern) {
      var i := ContainsWitness(left + mid + right, pattern);
      WindowAroundForeign(left, mid, right, pattern, i);
    }
    if Contains(left, pattern) {
      ContainsInLeft(left, mid + right, pattern);
      assert left + (mid + right) == left + mid + right;
    }
    if Contains(right, pattern) {
      ContainsInRight(left + mid, right, pattern);
    }
  }

  lemma {:induction false} ContainsInLeft(left: string, right: string, pattern: string)
    requires Contains(left, pattern)
    ensures Contains(left + right, pattern)
  {
    var i := ContainsWitness(left, pattern);
    assert (left + right)[i..i + |pattern|] == left[i..i + |pattern|];
    ContainsAt(left + right, pattern, i);
  }

  lemma {:induction false} ContainsInRight(left: string, right: string, pattern: string)
    requires Contains(right, pattern)
    ensures Contains(left + right, pattern)
  {
    var j := ContainsWitness(right, pattern);
    var i := |left| + j;
    assert (left + right)[i..i + |pattern|] == right[j..j + |pattern|];
    ContainsAt(left + right, pattern, i);
  }

  lemma {:induction false} WindowAroundForeign(left: string, mid: string, right: string, pattern: string, i: nat)
    requires |mid| > 0 && |pattern| > 0
    requires forall k :: 0 <= k < |mid| ==> mid[k] !in pattern
    requires i + |pattern| <= |left + mid + right| && (left + mid + right)[i..i + |pattern|] == pattern
    ensures Contains(left, pattern) || Contains(right, pattern)
  {
    var s := left + mid + right;
    if i + |pattern| <= |left| {
      assert left[i..i + |pattern|] == s[i..i + |pattern|];
      ContainsAt(left, pattern, i);
    } else if i >= |left| + |mid| {
      var j := i - |left| - |mid|;
      assert right[j..j + |pattern|] == s[i..i + |pattern|];
      ContainsAt(right, pattern, j);
    } else {
      // the window covers a character of `mid`
      WindowOverMid(left, mid, right, pattern, i);
      assert false;
    }
  }

  lemma {:induction false} WindowOverMid(left: string, mid: string, right: string, pattern: string, i: nat)
    requires |mid| > 0 && |pattern| > 0
    requires forall k :: 0 <= k < |mid| ==> mid[k] !in pattern
    requires i + |pattern| <= |left + mid + right|
    requires |left| < i + |pattern| && i < |left| + |mid|
    ensures (left + mid + right)[i..i + |pattern|] != pattern
  {
    var s := left + mid + right;
    var p := if i >= |left| then i else |left|;
    assert s[p] == mid[p - |left|];
    assert s[i..i + |pattern|][p - i] == s[p];
  }

  /** Python's `s.lstrip()`. */
  function TrimStart(s: string): (r: string)
    ensures |r| <= |s| && r == s[|s| - |r|..]
    ensures r == [] || !IsSpace(r[0])
  {
    if s != [] && IsSpace(s[0]) then TrimStart(s[1..]) else s
  }

  /** Python's `s.rstrip()`. */
  function TrimEnd(s: string): (r: string)
    ensures |r| <= |s| && r == s[..|r|]
    ensures r == [] || !IsSpace(r[|r| - 1])
  {
    if s != [] && IsSpace(s[|s| - 1]) then TrimEnd(s[..|s| - 1]) else s
  }

  /** Python's `s.strip()`. */
  function Strip(s: string): string {
    TrimEnd(TrimStart(s))
  }

  lemma {:induction false} StripUnchanged(s: string)
    requires s == [] || (!IsSpace(s[0]) && !IsSpace(s[|s| - 1]))
    ensures Strip(s) == s
  {
  }

  /** A string with a non-space character does not strip to nothing. */
  lemma {:induction false} NonBlankStrip(s: string, i: nat)
    requires i < |s| && !IsSpace(s[i])
    ensures Strip(s) != []
  {
    TrimStartNonBlank(s, i);
    TrimEndKeepsFirst(TrimStart(s));
  }

  lemma {:induction false} TrimStartNonBlank(s: string, i: nat)
    requires i < |s| && !IsSpace(s[i])
    ensures TrimStart(s) != []
    decreases i
  {
    if IsSpace(s[0]) {
      TrimStartNonBlank(s[1..], i - 1);
    }
  }

  lemma {:induction false} TrimEndKeepsFirst(t: string)
    requires t != [] && !IsSpace(t[0])
    ensures TrimEnd(t) != []
    decreases |t|
  {
    if IsSpace(t[|t| - 1]) {
      TrimEndKeepsFirst(t[..|t| - 1]);
    }
  }

  /** No window of `s` spells `pattern` when one of its characters is missing from `s`. */
  lemma {:induction false} NotContainsMissing(s: string, pattern: string, i: nat)
    requires i < |pattern| && pattern[i] !in s
    ensures !Contains(s, pattern)
    decreases |s|
  {
    if s != [] {
      NotContainsMissing(s[1..], pattern, i);
    }
  }

  /** A string lacking some character of `pattern` does not contain it. */
  lemma {:induction false} NotContainsChar(s: string, pattern: string, c: char)
    requires c in pattern && c !in s
    ensures !Contains(s, pattern)
  {
    var i :| 0 <= i < |pattern| && pattern[i] == c;
    NotContainsMissing(s, pattern, i);
  }

  /** Python's `s.split(sep)` for a one-character separator: never empty. */
  function Split(s: string, sep: char): (r: seq<string>)
    ensures |r| >= 1
    ensures forall k :: 0 <= k < |r| ==> sep !in r[k]
  {
    if s == [] then [""]
    else
      var rest := Split(s[1..], sep);
      if s[0] == sep then [""] + rest
      else [[s[0]] + rest[0]] + rest[1..]
  }

  /** Python's `sep.join(parts)`. */
  function Join(parts: seq<string>, sep: string): string {
    if parts == [] then ""
    else if |parts| == 1 then parts[0]
    else parts[0] + sep + Join(parts[1..], sep)
  }

  lemma {:induction false} JoinFree(parts: seq<string>, sep: string, c: char)
    requires forall k :: 0 <= k < |parts| ==> c !in parts[k]
    requires c !in sep
    ensures c !in Join(parts, sep)
    decreases |parts|
  {
    if |parts| > 1 {
      JoinFree(parts[1..], sep, c);
    }
  }

  lemma {:induction false} JoinFirst(parts: seq<string>, sep: string)
    requires |parts| > 0 && |parts[0]| > 0
    ensures |Join(parts, sep)| > 0 && Join(parts, sep)[0] == parts[0][0]
  {
  }

  lemma {:induction false} JoinLast(parts: seq<string>, sep: string)
    requires |parts| > 0 && |parts[|parts| - 1]| > 0
    ensures var j := Join(parts, sep); |j| > 0 && j[|j| - 1] == parts[|parts| - 1][|parts[|parts| - 1]| - 1]
    decreases |parts|
  {
    if |parts| > 1 {
      JoinLast(parts[1..], sep);
    }
  }

  lemma {:induction false} SplitOfSepFree(s: string, sep: char)
    requires sep !in s
    ensures Split(s, sep) == [s]
  {
    if s != [] {
      SplitOfSepFree(s[1..], sep);
      assert [s[0]] + s[1..] == s;
    }
  }

  lemma {:induction false} SplitPrefix(word: string, sep: char, rest: string)
    requires sep !in word
    ensures Split(word + [sep] + rest, sep) == [word] + Split(rest, sep)
  {
    if word == [] {
      assert ([sep] + rest)[1..] == rest;
    } else {
      assert (word + [sep] + rest)[1..] == word[1..] + [sep] + rest;
      SplitPrefix(word[1..], sep, rest);
      assert [word[0]] + word[1..] == word;
    }
  }

  /** Splitting what a join of separator-free parts produced gives the parts back. */
  lemma {:induction false} SplitJoin(parts: seq<string>, sep: char)
    requires |parts| >= 1
    requires forall k :: 0 <= k < |parts| ==> sep !in parts[k]
    ensures Split(Join(parts, [sep]), sep) == parts
  {
    if |parts| == 1 {
      SplitOfSepFree(parts[0], sep);
    } else {
      SplitJoin(parts[1..], sep);
      SplitPrefix(parts[0], sep, Join(parts[1..], [sep]));
      assert [parts[0]] + parts[1..] == parts;
    }
  }

  /** The text before the first `sep`, Python's `s.split(sep)[0]`. */
  function Before(s: string, sep: char): (r: string)
    ensures StartsWith(s, r) && sep !in r
    ensures |r| < |s| ==> s[|r|] == sep
  {
    if s == [] || s[0] == sep then "" else [s[0]] + Before(s[1..], sep)
  }

  lemma {:induction false} BeforeIsFirstPiece(s: string, sep: char)
    ensures Before(s, sep) == Split(s, sep)[0]
  {
    if s != [] {
      BeforeIsFirstPiece(s[1..], sep);
    }
  }

  lemma {:induction false} BeforePrefix(word: string, sep: char, rest: string)
    requires sep !in word
    ensures Before(word + [sep] + rest, sep) == word
  {
    if word != [] {
      assert (word + [sep] + rest)[1..] == word[1..] + [sep] + rest;
      BeforePrefix(word[1..], sep, rest);
      assert [word[0]] + word[1..] == word;
    }
  }

  /**
   * Python's `s.split(sep, 1)` with exactly two results, or `None` when
   * `sep` does not occur (unpacking into two names then raises).
   */
  function SplitOnce(s: string, sep: char): (r: Option<(string, string)>)
    ensures r.None? <==> sep !in s
    ensures r.Some? ==> r.value.0 + [sep] + r.value.1 == s && sep !in r.value.0
  {
    var head := Before(s, sep);
    if |head| == |s| then None else Some((head, s[|head| + 1..]))
  }

  /** Splitting once at the first separator gives back the two sides. */
  lemma {:induction false} SplitOnceAt(head: string, sep: char, rest: string)
    requires sep !in head
    ensures SplitOnce(head + [sep] + rest, sep) == Some((head, rest))
  {
    var s := head + [sep] + rest;
    BeforePrefix(head, sep, rest);
    assert s[|head| + 1..] == rest;
  }

  /** Python's `s.split()[0]`, `None` when `s` holds no word (an IndexError). */
  function FirstWord(s: string): (r: Option<string>)
    ensures r.Some? ==> |r.value| > 0 && (forall k :: 0 <= k < |r.value| ==> !IsSpace(r.value[k]))
  {
    var t := TrimStart(s);
    if t == [] then None else Some(Word(t))
  }

  /** The leading run of non-space characters. */
  function Word(s: string): (r: string)
    requires s != [] && !IsSpace(s[0])
    ensures |r| > 0 && StartsWith(s, r)
    ensures forall k :: 0 <= k < |r| ==> !IsSpace(r[k])
  {
    if |s| == 1 || IsSpace(s[1]) then [s[0]] else [s[0]] + Word(s[1..])
  }

  /** The leading word of a word followed by a space (or nothing) is that word. */
  lemma {:induction false} WordOf(w: string, rest: string)
    requires |w| > 0 && (forall k :: 0 <= k < |w| ==> !IsSpace(w[k]))
    requires rest == [] || IsSpace(rest[0])
    ensures Word(w + rest) == w
    decreases |w|
  {
    if |w| > 1 {
      assert (w + rest)[1..] == w[1..] + rest;
      WordOf(w[1..], rest);
      assert [w[0]] + w[1..] == w;
    }
  }

  lemma {:induction false} FirstWordOf(w: string, rest: string)
    requires |w| > 0 && (forall k :: 0 <= k < |w| ==> !IsSpace(w[k]))
    requires rest == [] || IsSpace(rest[0])
    ensures FirstWord(w + rest) == Some(w)
  {
    assert TrimStart(w + rest) == w + rest;
    WordOf(w, rest);
  }

  function LowerChar(c: char): char {
    if 'A' <= c <= 'Z' then (c as int + 32) as char else c
  }

  /** Python's `s.lower()` restricted to ASCII letters. */
  function Lower(s: string): (r: string)
    ensures |r| == |s| && forall k :: 0 <= k < |s| ==> r[k] == LowerChar(s[k])
  {
    if s == [] then "" else [LowerChar(s[0])] + Lower(s[1..])
  }

  lemma {:induction false} LowerConcat(a: string, b: string)
    ensures Lower(a + b) == Lower(a) + Lower(b)
  {
    forall k | 0 <= k < |a + b|
      ensures Lower(a + b)[k] == (Lower(a) + Lower(b))[k]
    {
      if k < |a| {
        assert (a + b)[k] == a[k];
      } else {
        assert (a + b)[k] == b[k - |a|];
      }
    }
  }

  /** Python's `s.replace(pattern, "")`: every non-overlapping occurrence, left to right, removed. */
  function RemoveAll(s: string, pattern: string): (r: string)
    requires |pattern| > 0
    ensures |r| <= |s|
  {
    if |s| < |pattern| then s
    else if s[..|pattern|] == pattern then RemoveAll(s[|pattern|..], pattern)
    else [s[0]] + RemoveAll(s[1..], pattern)
  }

  lemma {:induction false} RemoveAllAbsent(s: string, pattern: string)
    requires |pattern| > 0 && !Contains(s, pattern)
    ensures RemoveAll(s, pattern) == s
    decreases |s|
  {
    if |s| >= |pattern| {
      assert s[..|pattern|] != pattern;
      RemoveAllAbsent(s[1..], pattern);
      assert [s[0]] + s[1..] == s;
    }
  }

  /** A string without the first character of `pattern` does not contain it. */
  lemma {:induction false} NotContainsMissingChar(s: string, pattern: string)
    requires |pattern| > 0 && pattern[0] !in s
    ensures !Contains(s, pattern)
    decreases |s|
  {
    if s != [] {
      NotContainsMissingChar(s[1..], pattern);
    }
  }

  /** A pattern longer than the text is not in it. */
  lemma {:induction false} ShorterNotContains(s: string, pattern: string)
    requires |pattern| > |s|
    ensures !Contains(s, pattern)
    decreases |s|
  {
    if s != [] {
      ShorterNotContains(s[1..], pattern);
    }
  }

  /** Python's `s.replace(c, repl)` for a one-character pattern. */
  function ReplaceChar(s: string, c: char, repl: string): (r: string)
    ensures c !in s ==> r == s
  {
    if s == [] then "" else (if s[0] == c then repl else [s[0]]) + ReplaceChar(s[1..], c, repl)
  }

  /** Replacing in a string whose only occurrence of `c` is its last character. */
  lemma {:induction false} ReplaceCharAtEnd(s: string, c: char, repl: string)
    requires c !in s
    ensures ReplaceChar(s + [c], c, repl) == s + repl
    decreases |s|
  {
    if s == [] {
      assert [c][1..] == [];
    } else {
      assert (s + [c])[1..] == s[1..] + [c];
      ReplaceCharAtEnd(s[1..], c, repl);
    }
  }

  function DigitChar(d: nat): char
    requires d < 10
  {
    "0123456789"[d]
  }

  /** Python's `str(n)` for a natural number. */
  function NatToString(n: nat): (r: string)
    ensures |r| > 0
  {
    if n < 10 then [DigitChar(n)] else NatToString(n / 10) + [DigitChar(n % 10)]
  }
}
