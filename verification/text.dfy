/** The Python string operations the modelled code relies on, written out on
    `seq<char>`: `strip`, `rstrip(c)`, `split(c)`, `split()`, `join`, `in`,
    `startswith`, `replace`, `lower`, `title` and decimal formatting of an int. */
module Text {
  import opened Seqs

  /** The characters for which Python's `str.isspace()` holds. */
  predicate IsSpace(c: char) {
    || ('\t' <= c <= '\r')
    || ('\U{1C}' <= c <= '\U{1F}')
    || c == ' '
    || c == '\U{85}'
    || c == '\U{A0}'
    || c == '\U{1680}'
    || ('\U{2000}' <= c <= '\U{200A}')
    || c == '\U{2028}'
    || c == '\U{2029}'
    || c == '\U{202F}'
    || c == '\U{205F}'
    || c == '\U{3000}'
  }

  /** No whitespace at either end: what `strip()` guarantees of its result. */
  predicate NoOuterSpace(s: string) {
    |s| > 0 ==> !IsSpace(s[0]) && !IsSpace(s[|s| - 1])
  }

  /** All characters are whitespace (so `s.strip()` is empty and `s` is falsy after stripping). */
  predicate AllSpace(s: string) {
    forall i :: 0 <= i < |s| ==> IsSpace(s[i])
  }

  /** Python's `s.lstrip()`. */
  function LStrip(s: string): (r: string)
    ensures |r| <= |s| && r == s[|s| - |r|..]
    ensures |r| > 0 ==> !IsSpace(r[0])
    ensures AllSpace(s[..|s| - |r|])
  {
    if |s| > 0 && IsSpace(s[0]) then LStrip(s[1..]) else s
  }

  /** Python's `s.rstrip()`. */
  function RStrip(s: string): (r: string)
    ensures |r| <= |s| && r == s[..|r|]
    ensures |r| > 0 ==> !IsSpace(r[|r| - 1])
    ensures AllSpace(s[|r|..])
  {
    if |s| > 0 && IsSpace(s[|s| - 1]) then RStrip(s[..|s| - 1]) else s
  }

  /** Python's `s.strip()`. */
  function Strip(s: string): (r: string)
    ensures NoOuterSpace(r)
    ensures |r| <= |s|
    ensures NoOuterSpace(s) ==> r == s
    ensures r == [] <==> AllSpace(s)
  {
    RStrip(LStrip(s))
  }

  /** `strip()` removes exactly the whitespace padding around a word-like core. */
  lemma {:induction false} StripPadded(pre: string, t: string, post: string)
    requires AllSpace(pre) && AllSpace(post) && t != [] && NoOuterSpace(t)
    ensures Strip(pre + t + post) == t
  {
    LStripPadded(pre, t + post);
    Assoc(pre, t, post);
    RStripPadded(t, post);
  }

  lemma {:induction false} LStripPadded(pre: string, s: string)
    requires AllSpace(pre) && s != [] && !IsSpace(s[0])
    ensures LStrip(pre + s) == s
  {
    if pre != [] {
      TailAppend(pre, s);
      LStripPadded(pre[1..], s);
    } else {
      AppendEmpty(s);
    }
  }

  lemma {:induction false} RStripPadded(s: string, post: string)
    requires AllSpace(post) && s != [] && !IsSpace(s[|s| - 1])
    ensures RStrip(s + post) == s
  {
    if post != [] {
      var n := |post| - 1;
      TakeAppend(s, post, n);
      RStripPadded(s, post[..n]);
    } else {
      AppendEmpty(s);
    }
  }

  /** Python's `s.rstrip(c)` for a single character `c`. */
  function RStripChar(s: string, c: char): (r: string)
    ensures |r| <= |s| && r == s[..|r|]
    ensures |r| > 0 ==> r[|r| - 1] != c
    ensures forall i :: |r| <= i < |s| ==> s[i] == c
  {
    if |s| > 0 && s[|s| - 1] == c then RStripChar(s[..|s| - 1], c) else s
  }

  /** Position of the first occurrence of `c` in `s` (Python's `s.index(c)`). */
  function IndexOf(s: string, c: char): (k: nat)
    requires c in s
    ensures k < |s| && s[k] == c
    ensures forall j :: 0 <= j < k ==> s[j] != c
  {
    if s[0] == c then 0
    else
      assert c in s[1..] by { var j :| 0 <= j < |s| && s[j] == c; assert s[1..][j - 1] == c; }
      1 + IndexOf(s[1..], c)
  }

  lemma {:induction false} IndexOfAfter(a: string, c: char, b: string)
    requires c !in a
    ensures c in a + [c] + b && IndexOf(a + [c] + b, c) == |a|
  {
    var s := a + [c] + b;
    assert s[|a|] == c;
    assert s[..|a|] == a;
  }

  /** Splitting at the first separator: the piece before it, then the rest split. */
  lemma {:induction false} SplitAfter(a: string, c: char, b: string)
    requires c !in a
    ensures Split(a + [c] + b, c) == [a] + Split(b, c)
  {
    var s := a + [c] + b;
    IndexOfAfter(a, c, b);
    assert s[..|a|] == a;
    assert s[|a| + 1..] == b;
  }

  /** Python's `s.split(sep)` for a one-character separator: never empty, and no
      piece contains the separator. */
  function Split(s: string, sep: char): (parts: seq<string>)
    ensures |parts| >= 1
    ensures forall i :: 0 <= i < |parts| ==> sep !in parts[i]
    ensures |parts[0]| <= |s| && parts[0] == s[..|parts[0]|]
    ensures sep in s <==> |parts| >= 2
    decreases |s|
  {
    if sep in s then
      var k := IndexOf(s, sep);
      [s[..k]] + Split(s[k + 1..], sep)
    else [s]
  }

  /** Python's `sep.join(parts)`. */
  function Join(parts: seq<string>, sep: string): string
  {
    if |parts| == 0 then ""
    else if |parts| == 1 then parts[0]
    else parts[0] + sep + Join(parts[1..], sep)
  }

  /** Splitting a joined list of separator-free pieces gives the pieces back. */
  lemma {:induction false} SplitJoin(parts: seq<string>, sep: char)
    requires |parts| >= 1
    requires forall i :: 0 <= i < |parts| ==> sep !in parts[i]
    ensures Split(Join(parts, [sep]), sep) == parts
  {
    if |parts| > 1 {
      var rest := Join(parts[1..], [sep]);
      assert Join(parts, [sep]) == parts[0] + [sep] + rest;
      SplitAfter(parts[0], sep, rest);
      SplitJoin(parts[1..], sep);
      assert parts == [parts[0]] + parts[1..];
    }
  }

  /** The second piece of a joined list of three or more. */
  lemma JoinSecond(parts: seq<string>, sep: string)
    requires 2 < |parts|
    ensures Join(parts, sep) == Join(parts[..1], sep) + sep + parts[1] + sep + Join(parts[2..], sep)
  {
    var a, x, b := parts[0] + sep, parts[1], Join(parts[2..], sep);
    assert parts[1..][1..] == parts[2..];
    assert Join(parts, sep) == a + ((x + sep) + b);
    Assoc(a, x + sep, b);
    Assoc(a, x, sep);
  }

  /** A piece strictly inside a joined list sits between two separators. */
  lemma {:induction false} JoinAt(parts: seq<string>, sep: string, k: nat)
    requires 0 < k < |parts| - 1
    ensures Join(parts, sep) == Join(parts[..k], sep) + sep + parts[k] + sep + Join(parts[k + 1..], sep)
  {
    if k == 1 {
      JoinSecond(parts, sep);
    } else {
      var a, x, rest := parts[0] + sep, parts[k], parts[1..];
      var b := Join(parts[k + 1..], sep);
      JoinAt(rest, sep, k - 1);
      assert rest[k..] == parts[k + 1..];
      var r := Join(rest[..k - 1], sep);
      assert parts[..k][1..] == rest[..k - 1];
      assert Join(parts[..k], sep) == a + r;
      Assoc(a, ((r + sep) + x) + sep, b);
      Assoc(a, (r + sep) + x, sep);
      Assoc(a, r + sep, x);
      Assoc(a, r, sep);
      Assoc(parts[0], sep, r);
    }
  }

  /** A joined list ends with its last piece. */
  lemma {:induction false} JoinEnds(parts: seq<string>, sep: string)
    requires parts != []
    ensures EndsWith(Join(parts, sep), parts[|parts| - 1])
  {
    if |parts| > 1 {
      JoinEnds(parts[1..], sep);
      EndsWithPrepend(parts[0] + sep, Join(parts[1..], sep), parts[|parts| - 1]);
    }
  }

  /** Each piece strictly inside a joined list occurs between two separators. */
  lemma JoinHasPiece(parts: seq<string>, sep: string, k: nat)
    requires 0 < k < |parts| - 1
    ensures Contains(Join(parts, sep), sep + parts[k] + sep)
  {
    var before, after := Join(parts[..k], sep), Join(parts[k + 1..], sep);
    JoinAt(parts, sep, k);
    assert before + sep + parts[k] + sep == before + (sep + parts[k] + sep);
    ContainsInfix(before, sep + parts[k] + sep, after);
  }

  /** A character missing from a string is missing from its prefixes. */
  lemma PrefixLacks(s: string, n: nat, c: char)
    requires n <= |s| && c !in s
    ensures c !in s[..n]
  {
    forall i | 0 <= i < n ensures s[..n][i] != c {
      assert s[..n][i] == s[i];
    }
  }

  /** Stripping adds no character. */
  lemma StripLacks(s: string, c: char)
    requires c !in s
    ensures c !in Strip(s)
  {
    var t := LStrip(s);
    forall i | 0 <= i < |t| ensures t[i] != c {
      assert t[i] == s[|s| - |t| + i];
    }
    PrefixLacks(t, |RStrip(t)|, c);
  }

  predicate StartsWith(s: string, prefix: string) {
    |prefix| <= |s| && s[..|prefix|] == prefix
  }

  predicate EndsWith(s: string, suffix: string) {
    |suffix| <= |s| && s[|s| - |suffix|..] == suffix
  }

  /** A prefix stays a prefix when text is appended. */
  lemma StartsWithAppend(s: string, prefix: string, x: string)
    requires StartsWith(s, prefix)
    ensures StartsWith(s + x, prefix)
  {
    assert (s + x)[..|prefix|] == s[..|prefix|];
  }

  /** A suffix stays a suffix when text is prepended. */
  lemma EndsWithPrepend(x: string, s: string, suffix: string)
    requires EndsWith(s, suffix)
    ensures EndsWith(x + s, suffix)
  {
    assert (x + s)[|x + s| - |suffix|..] == s[|s| - |suffix|..];
  }

  /** The last two pieces of a concatenation end it. */
  lemma EndsWithTail(x: string, a: string, b: string)
    ensures EndsWith(x + a + b, a + b)
  {
    assert x + a + b == x + (a + b);
  }

  /** `sub` occurs in `s` starting at position `i`. */
  predicate OccursAt(s: string, sub: string, i: nat) {
    i + |sub| <= |s| && s[i..i + |sub|] == sub
  }

  /** Python's substring test `sub in s`. */
  predicate Contains(s: string, sub: string)
    decreases |s|
  {
    StartsWith(s, sub) || (|s| > 0 && Contains(s[1..], sub))
  }

  lemma {:induction false} ContainsAt(s: string, sub: string, i: nat)
    requires OccursAt(s, sub, i)
    ensures Contains(s, sub)
  {
    if i > 0 {
      assert s[1..][i - 1..i - 1 + |sub|] == s[i..i + |sub|];
      ContainsAt(s[1..], sub, i - 1);
    }
  }

  lemma ContainsInfix(a: string, sub: string, b: string)
    ensures Contains(a + sub + b, sub)
  {
    assert (a + sub + b)[|a|..|a| + |sub|] == sub;
    ContainsAt(a + sub + b, sub, |a|);
  }

  /** `sub in s` holds only if `sub` occurs at some position of `s`. */
  lemma {:induction false} NotContainsAnywhere(s: string, sub: string)
    requires forall i: nat :: !OccursAt(s, sub, i)
    ensures !Contains(s, sub)
  {
    assert !OccursAt(s, sub, 0);
    if |s| > 0 {
      forall i: nat ensures !OccursAt(s[1..], sub, i) {
        if i + |sub| <= |s[1..]| {
          assert s[1..][i..i + |sub|] == s[i + 1..i + 1 + |sub|];
          assert !OccursAt(s, sub, i + 1);
        }
      }
      NotContainsAnywhere(s[1..], sub);
    }
  }

  /** A pattern holding a character that `s` lacks does not occur in `s`. */
  lemma AbsentChar(s: string, sub: string, ch: char)
    requires ch in sub && ch !in s
    ensures !Contains(s, sub)
  {
    forall i: nat ensures !OccursAt(s, sub, i) {
      if i + |sub| <= |s| {
        var j :| 0 <= j < |sub| && sub[j] == ch;
        assert s[i..i + |sub|][j] == s[i + j];
      }
    }
    NotContainsAnywhere(s, sub);
  }

  function LowerChar(c: char): char {
    if 'A' <= c <= 'Z' then (c as int + 32) as char else c
  }

  function UpperChar(c: char): char {
    if 'a' <= c <= 'z' then (c as int - 32) as char else c
  }

  predicate IsAsciiLetter(c: char) {
    'a' <= c <= 'z' || 'A' <= c <= 'Z'
  }

  /** Python's `s.lower()`, restricted to ASCII letters. */
  function Lower(s: string): (r: string)
    ensures |r| == |s|
  {
    if s == [] then [] else [LowerChar(s[0])] + Lower(s[1..])
  }

  /** Each character is lower-cased in place. */
  lemma {:induction false} LowerAt(s: string, i: nat)
    requires i < |s|
    ensures Lower(s)[i] == LowerChar(s[i])
  {
    if i > 0 {
      LowerAt(s[1..], i - 1);
    }
  }

  /** Lower-casing a string without upper-case letters changes nothing. */
  lemma LowerNoUpper(s: string)
    requires forall i :: 0 <= i < |s| ==> !('A' <= s[i] <= 'Z')
    ensures Lower(s) == s
  {
    forall i | 0 <= i < |s| ensures Lower(s)[i] == s[i] {
      LowerAt(s, i);
    }
  }

  /** Python's `s.title()`, restricted to ASCII letters: a letter is upper-cased
      when the character before it is not a letter, lower-cased otherwise. */
  function Title(s: string): string {
    TitleFrom(s, false)
  }

  function TitleFrom(s: string, afterLetter: bool): string {
    if s == [] then []
    else
      var c := s[0];
      var t := if !IsAsciiLetter(c) then c else if afterLetter then LowerChar(c) else UpperChar(c);
      [t] + TitleFrom(s[1..], IsAsciiLetter(c))
  }

  /** Python's `s.replace(c, '')` for one character. */
  function RemoveChar(s: string, c: char): (r: string)
    ensures c !in r
  {
    if s == [] then [] else (if s[0] == c then [] else [s[0]]) + RemoveChar(s[1..], c)
  }

  /** Removing one character adds no other. */
  lemma {:induction false} RemoveCharLacks(s: string, c: char, d: char)
    requires d !in s
    ensures d !in RemoveChar(s, c)
  {
    if s != [] {
      assert d !in s[1..];
      RemoveCharLacks(s[1..], c, d);
    }
  }

  /** Python's `s.replace(pat, rep)`: every non-overlapping occurrence, left to right. */
  function ReplaceAll(s: string, pat: string, rep: string): string
    requires |pat| > 0
    decreases |s|
  {
    if |s| == 0 then ""
    else if StartsWith(s, pat) then rep + ReplaceAll(s[|pat|..], pat, rep)
    else [s[0]] + ReplaceAll(s[1..], pat, rep)
  }

  /** Replacing a pattern that does not occur leaves the string unchanged. */
  lemma {:induction false} ReplaceAbsent(s: string, pat: string, rep: string)
    requires |pat| > 0 && !Contains(s, pat)
    ensures ReplaceAll(s, pat, rep) == s
  {
    if |s| > 0 {
      ReplaceAbsent(s[1..], pat, rep);
      assert s == [s[0]] + s[1..];
    }
  }

  /** Number of leading non-whitespace characters of `t`. */
  function WordLength(t: string): (n: nat)
    ensures n <= |t|
    ensures forall i :: 0 <= i < n ==> !IsSpace(t[i])
    ensures n < |t| ==> IsSpace(t[n])
  {
    if t == [] || IsSpace(t[0]) then 0 else 1 + WordLength(t[1..])
  }

  predicate IsWord(w: string) {
    w != [] && forall j :: 0 <= j < |w| ==> !IsSpace(w[j])
  }

  /** Two words joined by a space have no outer whitespace to strip. */
  lemma StripTwoWords(w1: string, w2: string)
    requires IsWord(w1) && IsWord(w2)
    ensures Strip(w1 + " " + w2) == w1 + " " + w2
  {
    var s := w1 + " " + w2;
    assert s[0] == w1[0] && s[|s| - 1] == w2[|w2| - 1];
  }

  /** Python's `s.split()`: the maximal runs of non-whitespace characters, in order. */
  function SplitWs(s: string): (words: seq<string>)
    ensures forall i :: 0 <= i < |words| ==> IsWord(words[i])
    decreases |s|
  {
    var t := LStrip(s);
    if t == [] then []
    else
      var n := WordLength(t);
      LeadingWord(t);
      var rest := SplitWs(t[n..]);
      AllWordsCons(t[..n], rest);
      [t[..n]] + rest
  }

  /** A string that starts with a non-whitespace character starts with a word. */
  lemma LeadingWord(t: string)
    requires t != [] && !IsSpace(t[0])
    ensures IsWord(t[..WordLength(t)])
  {
    var n := WordLength(t);
    assert n > 0;
    forall j | 0 <= j < n
      ensures !IsSpace(t[..n][j])
    {
      assert t[..n][j] == t[j];
    }
  }

  lemma AllWordsCons(w: string, rest: seq<string>)
    requires IsWord(w) && forall i :: 0 <= i < |rest| ==> IsWord(rest[i])
    ensures forall i :: 0 <= i < |[w] + rest| ==> IsWord(([w] + rest)[i])
  {
    forall i | 0 <= i < |[w] + rest|
      ensures IsWord(([w] + rest)[i])
    {
      if i > 0 {
        assert ([w] + rest)[i] == rest[i - 1];
      }
    }
  }

  /** A word followed by whitespace (or by nothing) is the leading run of
      non-whitespace characters. */
  lemma WordLengthOfWord(w: string, t: string)
    requires IsWord(w) && (t == [] || IsSpace(t[0]))
    ensures WordLength(w + t) == |w|
  {
    var s := w + t;
    assert forall i :: 0 <= i < |w| ==> s[i] == w[i];
    assert |w| < |s| ==> s[|w|] == t[0];
  }

  /** A word followed by whitespace (or by nothing) is the first piece of `split()`. */
  lemma SplitWsWord(w: string, t: string)
    requires IsWord(w) && (t == [] || IsSpace(t[0]))
    ensures SplitWs(w + t) == [w] + SplitWs(t)
  {
    var s := w + t;
    assert s[0] == w[0];
    assert LStrip(s) == s;
    var n := WordLength(s);
    WordLengthOfWord(w, t);
    assert s[..n] == w;
    assert s[n..] == t;
    if t != [] {
      assert LStrip(t) == LStrip(t[1..]);
    }
  }

  /** A single word after one space splits into that word alone. */
  lemma SplitWsSpaceWord(w: string)
    requires IsWord(w)
    ensures SplitWs(" " + w) == [w]
  {
    var t := " " + w;
    assert t[1..] == w;
    assert LStrip(w) == w by { assert !IsSpace(w[0]); }
    assert LStrip(t) == LStrip(t[1..]) by { assert IsSpace(t[0]); }
    SplitWsWord(w, []);
    assert w + [] == w;
  }

  /** Two whitespace-free words joined by one space split back into the two words. */
  lemma SplitWsTwoWords(w1: string, w2: string)
    requires IsWord(w1) && IsWord(w2)
    ensures SplitWs(w1 + " " + w2) == [w1, w2]
  {
    calc {
      SplitWs(w1 + " " + w2);
      { assert w1 + " " + w2 == w1 + (" " + w2); }
      SplitWs(w1 + (" " + w2));
      { SplitWsWord(w1, " " + w2); }
      [w1] + SplitWs(" " + w2);
      { SplitWsSpaceWord(w2); }
      [w1] + [w2];
    }
  }

  function DigitChar(d: nat): char
    requires d < 10
  {
    "0123456789"[d]
  }

  /** Python's `str(n)` for a non-negative int. */
  function NatToString(n: nat): (r: string)
    ensures |r| >= 1
    decreases n
  {
    if n < 10 then [DigitChar(n)] else NatToString(n / 10) + [DigitChar(n % 10)]
  }
}
