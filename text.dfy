/**
 * The string primitives the chatbot relies on: ASCII lower-casing (`str.lower`),
 * whitespace trimming (`str.strip`), substring search (`sub in s`), the `\w+`
 * tokeniser (`re.findall`), reversal (`s[::-1]`) and joining with spaces
 * (`" ".join`).  Only the ASCII part of Python's Unicode semantics is modelled.
 */
module Text {

  /** Lower-cases an ASCII capital letter; every other character is kept. */
  function LowerChar(c: char): char
  {
    if 'A' <= c <= 'Z' then (c as int + 32) as char else c
  }

  /** `s.lower()` restricted to ASCII: character-wise lower-casing. */
  function Lower(s: string): (r: string)
    ensures |r| == |s|
    ensures forall i :: 0 <= i < |s| ==> r[i] == LowerChar(s[i])
  {
    seq(|s|, i requires 0 <= i < |s| => LowerChar(s[i]))
  }

  /** Lower-casing twice is lower-casing once. */
  lemma LowerIdempotent(s: string)
    ensures Lower(Lower(s)) == Lower(s)
  {
  }

  /** A string without ASCII capitals is its own lower-cased form. */
  lemma LowerOfLowerCase(s: string)
    requires forall i :: 0 <= i < |s| ==> !('A' <= s[i] <= 'Z')
    ensures Lower(s) == s
  {
  }

  /** Python's `str.isspace` on the ASCII range: space, \t \n \v \f \r and \x1c-\x1f. */
  predicate IsSpace(c: char)
  {
    c == ' ' || 9 <= c as int <= 13 || 28 <= c as int <= 31
  }

  /** Drops leading whitespace: the result is the suffix of `s` after its whitespace prefix. */
  function TrimStart(s: string): (r: string)
    ensures |r| <= |s| && r == s[|s| - |r|..]
    ensures r == [] || !IsSpace(r[0])
    ensures forall i :: 0 <= i < |s| - |r| ==> IsSpace(s[i])
  {
    if s != [] && IsSpace(s[0]) then TrimStart(s[1..]) else s
  }

  /** Drops trailing whitespace: the result is the prefix of `s` before its whitespace suffix. */
  function TrimEnd(s: string): (r: string)
    ensures |r| <= |s| && r == s[..|r|]
    ensures r == [] || !IsSpace(r[|r| - 1])
    ensures forall i :: |r| <= i < |s| ==> IsSpace(s[i])
  {
    if s != [] && IsSpace(s[|s| - 1]) then TrimEnd(s[..|s| - 1]) else s
  }

  /** `s.strip()`: the result is a slice of `s`, neither end of it is whitespace,
      and everything cut away on either side was whitespace. */
  function Strip(s: string): (r: string)
    ensures r == [] || (!IsSpace(r[0]) && !IsSpace(r[|r| - 1]))
    ensures exists lo :: StrippedAt(s, r, lo)
  {
    var t := TrimStart(s);
    var r := TrimEnd(t);
    var lo := |s| - |t|;
    assert StrippedAt(s, r, lo);
    r
  }

  /** `r` is the slice of `s` starting at `lo`, and all of `s` around it is whitespace. */
  predicate StrippedAt(s: string, r: string, lo: int)
  {
    && 0 <= lo <= |s| - |r|
    && r == s[lo..lo + |r|]
    && (forall i :: 0 <= i < lo ==> IsSpace(s[i]))
    && (forall i :: lo + |r| <= i < |s| ==> IsSpace(s[i]))
  }

  /** `sub` occurs in `s` at position `i`. */
  predicate OccursAt(s: string, sub: string, i: int)
  {
    0 <= i <= |s| - |sub| && s[i..i + |sub|] == sub
  }

  /** Python's `sub in s`. */
  predicate Contains(s: string, sub: string)
  {
    exists i | 0 <= i <= |s| - |sub| :: OccursAt(s, sub, i)
  }

  /** `sub` cannot occur where one of its adjacent character pairs never occurs. */
  lemma AbsentPair(s: string, sub: string, m: nat)
    requires m + 1 < |sub|
    requires forall i :: 0 <= i < |s| - 1 ==> !(s[i] == sub[m] && s[i + 1] == sub[m + 1])
    ensures !Contains(s, sub)
  {
    forall i | 0 <= i <= |s| - |sub|
      ensures !OccursAt(s, sub, i)
    {
      assert s[i..i + |sub|][m] == s[i + m] && s[i..i + |sub|][m + 1] == s[i + m + 1];
    }
  }

  /** `s` ends with `suffix` (`str.endswith`). */
  predicate EndsWith(s: string, suffix: string)
  {
    |suffix| <= |s| && s[|s| - |suffix|..] == suffix
  }

  /** A string that ends with `suffix` still does after something is put in front of it. */
  lemma EndsWithAfterPrefix(prefix: string, s: string, suffix: string)
    requires EndsWith(s, suffix)
    ensures EndsWith(prefix + s, suffix)
  {
    var whole := prefix + s;
    assert whole[|whole| - |suffix|..] == s[|s| - |suffix|..];
  }

  /** The sign-off that ends everything the bot says. */
  const SignOff: string := "end of line"

  /** One utterance of the bot: its body, a space and the sign-off. */
  function Line(body: string): (r: string)
    ensures EndsWith(r, SignOff)
  {
    var r := body + " " + SignOff;
    assert r[|r| - |SignOff|..] == SignOff;
    r
  }

  /** One character of a `\w` match, restricted to ASCII: a letter, a digit or `_`. */
  predicate IsWordChar(c: char)
  {
    'a' <= c <= 'z' || 'A' <= c <= 'Z' || '0' <= c <= '9' || c == '_'
  }

  /** A string made of word characters only. */
  predicate IsWord(w: string)
  {
    forall i :: 0 <= i < |w| ==> IsWordChar(w[i])
  }

  /** Length of the longest prefix of `s` made of word characters. */
  function WordPrefixLength(s: string): (n: nat)
    ensures n <= |s|
    ensures IsWord(s[..n])
    ensures n < |s| ==> !IsWordChar(s[n])
  {
    if s != [] && IsWordChar(s[0]) then
      var m := WordPrefixLength(s[1..]);
      assert s[..1 + m] == [s[0]] + s[1..][..m];
      1 + m
    else 0
  }

  /** `re.findall(r"\w+", s)`: the maximal runs of word characters, left to right. */
  function Words(s: string): (ws: seq<string>)
    ensures forall k :: 0 <= k < |ws| ==> ws[k] != [] && IsWord(ws[k])
    decreases |s|
  {
    if s == [] then []
    else if !IsWordChar(s[0]) then Words(s[1..])
    else
      var n := WordPrefixLength(s);
      [s[..n]] + Words(s[n..])
  }

  /** A non-empty run of word characters is one single match. */
  lemma {:induction false} WordsOfWord(w: string)
    requires w != [] && IsWord(w)
    ensures Words(w) == [w]
  {
    WordPrefixLengthOfWord(w);
    assert w[..|w|] == w;
    assert w[|w|..] == [];
  }

  /** The prefix length of an all-word string is its whole length. */
  lemma {:induction false} WordPrefixLengthOfWord(w: string)
    requires IsWord(w)
    ensures WordPrefixLength(w) == |w|
    decreases |w|
  {
    if w != [] {
      WordPrefixLengthOfWord(w[1..]);
    }
  }

  /** A run of word characters stops at a separator. */
  lemma {:induction false} WordPrefixLengthStopsAt(a: string, c: char, b: string)
    requires !IsWordChar(c)
    ensures WordPrefixLength(a + [c] + b) == WordPrefixLength(a)
    decreases |a|
  {
    if a == [] {
    } else {
      assert (a + [c] + b)[1..] == a[1..] + [c] + b;
      WordPrefixLengthStopsAt(a[1..], c, b);
    }
  }

  /** A separator splits the matches: those of the left part, then those of the right part. */
  lemma {:induction false} WordsSplit(a: string, c: char, b: string)
    requires !IsWordChar(c)
    ensures Words(a + [c] + b) == Words(a) + Words(b)
    decreases |a|
  {
    var s := a + [c] + b;
    if a == [] {
      assert s[1..] == b;
    } else if !IsWordChar(a[0]) {
      assert s[1..] == a[1..] + [c] + b;
      WordsSplit(a[1..], c, b);
    } else {
      var n := WordPrefixLength(s);
      WordPrefixLengthStopsAt(a, c, b);
      assert 0 < n <= |a|;
      assert s[..n] == a[..n];
      assert s[n..] == a[n..] + [c] + b;
      WordsSplit(a[n..], c, b);
    }
  }

  /** A string of separators only has no match. */
  lemma {:induction false} WordsOfSeparators(s: string)
    requires forall i :: 0 <= i < |s| ==> !IsWordChar(s[i])
    ensures Words(s) == []
    decreases |s|
  {
    if s != [] {
      WordsOfSeparators(s[1..]);
    }
  }

  /** `s[::-1]`. */
  function Reverse(s: string): (r: string)
    ensures |r| == |s|
    ensures forall i :: 0 <= i < |s| ==> r[i] == s[|s| - 1 - i]
  {
    if s == [] then [] else Reverse(s[1..]) + [s[0]]
  }

  /** `" ".join(parts)`. */
  function JoinSpaces(parts: seq<string>): string
  {
    if |parts| == 0 then ""
    else if |parts| == 1 then parts[0]
    else parts[0] + " " + JoinSpaces(parts[1..])
  }

  /** Joining ends the way the last part ends. */
  lemma {:induction false} JoinSpacesEndsWith(parts: seq<string>, suffix: string)
    requires parts != [] && EndsWith(parts[|parts| - 1], suffix)
    ensures EndsWith(JoinSpaces(parts), suffix)
    decreases |parts|
  {
    if |parts| > 1 {
      JoinSpacesEndsWith(parts[1..], suffix);
      var tail := JoinSpaces(parts[1..]);
      var whole := parts[0] + " " + tail;
      assert whole[|whole| - |suffix|..] == tail[|tail| - |suffix|..];
    }
  }

  /** Tokenising words joined by spaces gives the words back. */
  lemma {:induction false} WordsOfJoin(ws: seq<string>)
    requires forall k :: 0 <= k < |ws| ==> ws[k] != [] && IsWord(ws[k])
    ensures Words(JoinSpaces(ws)) == ws
    decreases |ws|
  {
    if |ws| == 1 {
      WordsOfWord(ws[0]);
    } else if |ws| > 1 {
      var rest := JoinSpaces(ws[1..]);
      assert ws[0] + " " + rest == ws[0] + [' '] + rest;
      WordsSplit(ws[0], ' ', rest);
      WordsOfWord(ws[0]);
      WordsOfJoin(ws[1..]);
      assert ws == [ws[0]] + ws[1..];
    }
  }
}
