/** String primitives shared by the backend (Python) and the frontend (TypeScript):
    substring search, lower-casing, whitespace splitting, decimal digits and
    UTF-16 length. Strings are sequences of Unicode scalar values. */
module Text {

  /** `sub in s` in Python, `s.includes(sub)` in JavaScript. The empty string occurs everywhere. */
  predicate Contains(s: string, sub: string)
    decreases |s|
  {
    sub <= s || (|s| > 0 && Contains(s[1..], sub))
  }

  /** True iff some keyword of `keywords` occurs in `s` (Python's `any(w in s for w in keywords)`). */
  predicate ContainsAny(s: string, keywords: seq<string>)
  {
    exists i :: 0 <= i < |keywords| && Contains(s, keywords[i])
  }

  lemma {:induction false} ContainsAt(s: string, sub: string, i: nat)
    requires i + |sub| <= |s| && s[i..i + |sub|] == sub
    ensures Contains(s, sub)
    decreases i
  {
    if i == 0 {
      assert s[..|sub|] == sub;
    } else {
      assert s[1..][i - 1..i - 1 + |sub|] == s[i..i + |sub|];
      ContainsAt(s[1..], sub, i - 1);
    }
  }

  /** Every occurrence found by Contains sits at some index. */
  lemma {:induction false} ContainsWitness(s: string, sub: string) returns (i: nat)
    requires Contains(s, sub)
    ensures i + |sub| <= |s| && s[i..i + |sub|] == sub
    decreases |s|
  {
    if sub <= s {
      i := 0;
    } else {
      var j := ContainsWitness(s[1..], sub);
      assert s[1..][j..j + |sub|] == s[j + 1..j + 1 + |sub|];
      i := j + 1;
    }
  }

  /** A piece of a concatenation occurs in the concatenation. */
  lemma ContainsMiddle(a: string, b: string, c: string)
    ensures Contains(a + b + c, b)
  {
    assert (a + b + c)[|a|..|a| + |b|] == b;
    ContainsAt(a + b + c, b, |a|);
  }

  /** An occurrence in the left operand is an occurrence in the concatenation. */
  lemma ContainsLeft(a: string, b: string, k: string)
    requires Contains(a, k)
    ensures Contains(a + b, k)
  {
    var i := ContainsWitness(a, k);
    assert (a + b)[i..i + |k|] == a[i..i + |k|];
    ContainsAt(a + b, k, i);
  }

  /** An occurrence in the right operand is an occurrence in the concatenation. */
  lemma ContainsRight(a: string, b: string, k: string)
    requires Contains(b, k)
    ensures Contains(a + b, k)
  {
    var i := ContainsWitness(b, k);
    assert (a + b)[|a| + i..|a| + i + |k|] == b[i..i + |k|];
    ContainsAt(a + b, k, |a| + i);
  }

  /** Every string contains itself. */
  lemma ContainsSelf(s: string)
    ensures Contains(s, s)
  {
  }

  /** Python's `c in s` for a one-character needle is membership. */
  lemma ContainsChar(s: string, c: char)
    ensures Contains(s, [c]) <==> c in s
  {
    if Contains(s, [c]) {
      var i := ContainsWitness(s, [c]);
      assert s[i] == s[i..i + 1][0];
    }
    if c in s {
      var i :| 0 <= i < |s| && s[i] == c;
      assert s[i..i + 1] == [c];
      ContainsAt(s, [c], i);
    }
  }

  // ---------------------------------------------------------------------------
  // Lower-casing (Python's str.lower, JavaScript's toLowerCase)
  // ---------------------------------------------------------------------------

  /** The upper-case letters the simple case mapping covers: Basic Latin, Latin-1 (without
      the multiplication sign) and basic Cyrillic. */
  predicate IsUpper(c: char)
  {
    ('A' <= c <= 'Z') || ('\U{00C0}' <= c <= '\U{00DE}' && c != '\U{00D7}') || ('\U{0400}' <= c <= '\U{042F}')
  }

  function LowerChar(c: char): (r: char)
    ensures !IsUpper(r)
    ensures !IsUpper(c) ==> r == c
    ensures ('A' <= c <= 'Z') ==> r as int == c as int + 32
    ensures ('\U{00C0}' <= c <= '\U{00DE}' && c != '\U{00D7}') ==> r as int == c as int + 32
    ensures ('\U{0410}' <= c <= '\U{042F}') ==> r as int == c as int + 32
    ensures ('\U{0400}' <= c <= '\U{040F}') ==> r as int == c as int + 80
  {
    if 'A' <= c <= 'Z' then (c as int + 32) as char
    else if '\U{00C0}' <= c <= '\U{00DE}' && c != '\U{00D7}' then (c as int + 32) as char
    else if '\U{0410}' <= c <= '\U{042F}' then (c as int + 32) as char
    else if '\U{0400}' <= c <= '\U{040F}' then (c as int + 80) as char
    else c
  }

  function Lower(s: string): (r: string)
    ensures |r| == |s|
    ensures forall i :: 0 <= i < |s| ==> r[i] == LowerChar(s[i])
  {
    seq(|s|, i requires 0 <= i < |s| => LowerChar(s[i]))
  }

  /** Lower-casing twice is lower-casing once. */
  lemma LowerIdempotent(s: string)
    ensures Lower(Lower(s)) == Lower(s)
  {
    assert forall i :: 0 <= i < |s| ==> Lower(Lower(s))[i] == Lower(s)[i];
  }

  /** An occurrence survives lower-casing: matching a lower-case keyword against
      the lower-cased text ignores the case of the text. */
  lemma LowerPreservesContains(s: string, sub: string)
    requires Contains(s, sub)
    ensures Contains(Lower(s), Lower(sub))
  {
    var i := ContainsWitness(s, sub);
    assert Lower(s)[i..i + |sub|] == Lower(sub);
    ContainsAt(Lower(s), Lower(sub), i);
  }

  // ---------------------------------------------------------------------------
  // Searching for a character (Python's str.find / str.rfind)
  // ---------------------------------------------------------------------------

  /** `s.find(c)`: index of the first `c`, or -1. */
  function FindChar(s: string, c: char): (r: int)
    ensures -1 <= r < |s|
    ensures r == -1 <==> c !in s
    ensures r >= 0 ==> s[r] == c && forall j :: 0 <= j < r ==> s[j] != c
  {
    FindFrom(s, c, 0)
  }

  function FindFrom(s: string, c: char, i: nat): (r: int)
    requires i <= |s|
    ensures r == -1 || i <= r < |s|
    ensures r == -1 <==> forall j :: i <= j < |s| ==> s[j] != c
    ensures r >= 0 ==> s[r] == c && forall j :: i <= j < r ==> s[j] != c
    decreases |s| - i
  {
    if i == |s| then -1
    else if s[i] == c then i
    else FindFrom(s, c, i + 1)
  }

  /** `s.rfind(c)`: index of the last `c`, or -1. */
  function RFindChar(s: string, c: char): (r: int)
    ensures -1 <= r < |s|
    ensures r == -1 <==> c !in s
    ensures r >= 0 ==> s[r] == c && forall j :: r < j < |s| ==> s[j] != c
  {
    RFindBefore(s, c, |s|)
  }

  function RFindBefore(s: string, c: char, n: nat): (r: int)
    requires n <= |s|
    ensures -1 <= r < n
    ensures r == -1 <==> forall j :: 0 <= j < n ==> s[j] != c
    ensures r >= 0 ==> s[r] == c && forall j :: r < j < n ==> s[j] != c
  {
    if n == 0 then -1
    else if s[n - 1] == c then n - 1
    else RFindBefore(s, c, n - 1)
  }

  // ---------------------------------------------------------------------------
  // Whitespace splitting (Python's str.split() with no argument)
  // ---------------------------------------------------------------------------

  /** Python's str.isspace for one character: the ASCII separators and the Unicode
      spaces, line and paragraph separators. */
  predicate IsSpace(c: char)
  {
    || c == ' '
    || ('\t' <= c <= '\r')
    || ('\U{001C}' <= c <= '\U{001F}')
    || c == '\U{0085}' || c == '\U{00A0}' || c == '\U{1680}'
    || ('\U{2000}' <= c <= '\U{200A}')
    || c == '\U{2028}' || c == '\U{2029}' || c == '\U{202F}' || c == '\U{205F}' || c == '\U{3000}'
  }

  /** A word as str.split() returns it: non-empty, without whitespace. */
  predicate IsWord(w: string)
  {
    |w| > 0 && forall j :: 0 <= j < |w| ==> !IsSpace(w[j])
  }

  /** No character of `s` is whitespace. */
  predicate NoSpace(s: string)
  {
    forall j :: 0 <= j < |s| ==> !IsSpace(s[j])
  }

  /** Every character of `s` is whitespace. */
  predicate AllSpace(s: string)
  {
    forall j :: 0 <= j < |s| ==> IsSpace(s[j])
  }

  /** The suffix of `s` after its leading whitespace. */
  function DropSpaces(s: string): (r: string)
    ensures |r| <= |s| && r == s[|s| - |r|..]
    ensures r == [] || !IsSpace(r[0])
    decreases |s|
  {
    if |s| > 0 && IsSpace(s[0]) then DropSpaces(s[1..]) else s
  }

  /** What DropSpaces removes is whitespace. */
  lemma {:induction false} DropSpacesPrefix(s: string)
    ensures AllSpace(s[..|s| - |DropSpaces(s)|])
    decreases |s|
  {
    if |s| > 0 && IsSpace(s[0]) {
      DropSpacesPrefix(s[1..]);
      var k := |s| - |DropSpaces(s)|;
      forall j | 0 <= j < k ensures IsSpace(s[j]) {
        if j > 0 { assert s[j] == s[1..][..k - 1][j - 1]; }
      }
    }
  }

  /** Length of the run of non-whitespace characters at the start of `s`. */
  function WordLength(s: string): (n: nat)
    ensures n <= |s|
    ensures n == |s| || IsSpace(s[n])
    ensures |s| > 0 && !IsSpace(s[0]) ==> n > 0
    decreases |s|
  {
    if |s| > 0 && !IsSpace(s[0]) then 1 + WordLength(s[1..]) else 0
  }

  /** The run WordLength measures has no whitespace. */
  lemma {:induction false} WordLengthRun(s: string)
    ensures NoSpace(s[..WordLength(s)])
    decreases |s|
  {
    if |s| > 0 && !IsSpace(s[0]) {
      WordLengthRun(s[1..]);
      var n := WordLength(s);
      forall j | 0 <= j < n ensures !IsSpace(s[j]) {
        if j > 0 { assert s[j] == s[1..][..n - 1][j - 1]; }
      }
    }
  }

  /** `s.split()`: the maximal runs of non-whitespace characters, in order. */
  function Words(s: string): seq<string>
    decreases |s|
  {
    var t := DropSpaces(s);
    if t == [] then []
    else
      var n := WordLength(t);
      [t[..n]] + Words(t[n..])
  }

  /** One step of Words on a string that has a word. */
  lemma WordsUnfold(s: string)
    requires DropSpaces(s) != []
    ensures var t := DropSpaces(s); var n := WordLength(t);
      Words(s) == [t[..n]] + Words(t[n..]) && IsWord(t[..n]) && |t[n..]| < |s|
  {
    WordLengthRun(DropSpaces(s));
  }

  /** Every piece str.split() returns is a non-empty run without whitespace. */
  lemma {:induction false} WordsAreWords(s: string)
    ensures forall i :: 0 <= i < |Words(s)| ==> IsWord(Words(s)[i])
    decreases |s|
  {
    if DropSpaces(s) != [] {
      var t := DropSpaces(s);
      var n := WordLength(t);
      var rest := t[n..];
      WordsUnfold(s);
      WordsAreWords(rest);
      var ws, tail := Words(s), Words(rest);
      assert ws == [t[..n]] + tail;
      forall i | 0 <= i < |ws| ensures IsWord(ws[i]) {
        if i > 0 { assert ws[i] == tail[i - 1]; }
      }
    }
  }

  /** The words joined by single spaces (`" ".join(ws)`). */
  function JoinWords(ws: seq<string>): string
  {
    if |ws| == 0 then ""
    else if |ws| == 1 then ws[0]
    else ws[0] + " " + JoinWords(ws[1..])
  }

  /** The concatenation of a sequence of fragments. */
  function Concat(parts: seq<string>): string
  {
    if |parts| == 0 then "" else parts[0] + Concat(parts[1..])
  }

  /** A string has no words exactly when it is all whitespace (in particular, when it is empty). */
  lemma WordsEmpty(s: string)
    ensures Words(s) == [] <==> AllSpace(s)
  {
    var t := DropSpaces(s);
    DropSpacesPrefix(s);
    if t != [] {
      assert s[|s| - |t|] == t[0];
    } else {
      assert s[..|s|] == s;
    }
  }

  /** A leading space does not change the words. */
  lemma WordsSkipSpace(rest: string)
    ensures Words(" " + rest) == Words(rest)
  {
    var s := " " + rest;
    assert IsSpace(s[0]);
    assert s[1..] == rest;
    assert DropSpaces(s) == DropSpaces(rest);
  }

  /** The length of a word followed by whitespace or nothing is the word's length. */
  lemma {:induction false} WordLengthOfWord(w: string, rest: string)
    requires |w| > 0 && NoSpace(w)
    requires rest == [] || IsSpace(rest[0])
    ensures WordLength(w + rest) == |w|
    decreases |w|
  {
    var s := w + rest;
    assert s[0] == w[0];
    if |w| > 1 {
      assert s[1..] == w[1..] + rest;
      assert NoSpace(w[1..]) by {
        forall j | 0 <= j < |w[1..]| ensures !IsSpace(w[1..][j]) { assert w[1..][j] == w[j + 1]; }
      }
      WordLengthOfWord(w[1..], rest);
    } else {
      assert s[1..] == rest;
    }
  }

  /** A word followed by a space and more text splits into that word and the words of the rest. */
  lemma WordsOfWordThenSpace(w: string, rest: string)
    requires IsWord(w)
    ensures Words(w + " " + rest) == [w] + Words(rest)
  {
    var s := w + (" " + rest);
    assert s == w + " " + rest;
    assert s[0] == w[0];
    assert DropSpaces(s) == s;
    assert (" " + rest)[0] == ' ';
    WordLengthOfWord(w, " " + rest);
    assert s[..|w|] == w;
    assert s[|w|..] == " " + rest;
    WordsSkipSpace(rest);
  }

  /** A single word splits into itself. */
  lemma WordsOfWord(w: string)
    requires IsWord(w)
    ensures Words(w) == [w]
  {
    assert w[0] == w[0];
    assert DropSpaces(w) == w;
    WordLengthOfWord(w, []);
    assert w + [] == w;
    assert w[..|w|] == w;
    assert w[|w|..] == [];
    assert DropSpaces([]) == [];
  }

  /** Splitting the single-space join of well-formed words gives the words back. */
  lemma {:induction false} WordsOfJoin(ws: seq<string>)
    requires forall i :: 0 <= i < |ws| ==> IsWord(ws[i])
    ensures Words(JoinWords(ws)) == ws
    decreases |ws|
  {
    if |ws| == 1 {
      WordsOfWord(ws[0]);
    } else if |ws| > 1 {
      var tail := ws[1..];
      assert forall i :: 0 <= i < |tail| ==> IsWord(tail[i]) by {
        forall i | 0 <= i < |tail| ensures IsWord(tail[i]) { assert tail[i] == ws[i + 1]; }
      }
      assert ws == [ws[0]] + tail;
      WordsOfJoin(tail);
      WordsOfWordThenSpace(ws[0], JoinWords(tail));
      assert JoinWords(ws) == ws[0] + " " + JoinWords(tail);
    }
  }

  // ---------------------------------------------------------------------------
  // Decimal digits
  // ---------------------------------------------------------------------------

  function Digit(d: nat): (c: char)
    requires d < 10
    ensures '0' <= c <= '9' && c as int - '0' as int == d
  {
    ('0' as int + d) as char
  }

  predicate IsDigits(s: string)
  {
    forall j :: 0 <= j < |s| ==> '0' <= s[j] <= '9'
  }

  /** The number a string of decimal digits denotes. */
  function DigitsValue(s: string): nat
    requires IsDigits(s)
  {
    if |s| == 0 then 0
    else DigitsValue(s[..|s| - 1]) * 10 + (s[|s| - 1] as int - '0' as int)
  }

  function Pow10(k: nat): (p: nat)
    ensures p >= 1
  {
    if k == 0 then 1 else 10 * Pow10(k - 1)
  }

  /** A string of k digits denotes a number below 10^k. */
  lemma {:induction false} DigitsValueBound(s: string)
    requires IsDigits(s)
    ensures DigitsValue(s) < Pow10(|s|)
  {
    if |s| > 0 {
      var init := s[..|s| - 1];
      DigitsValueBound(init);
      assert DigitsValue(init) + 1 <= Pow10(|init|);
      assert DigitsValue(s) < (DigitsValue(init) + 1) * 10;
    }
  }

  /** `String(n)` / `str(n)` for a natural number: decimal, no leading zeros. */
  function NatToString(n: nat): (s: string)
    ensures |s| > 0 && IsDigits(s)
    ensures |s| > 1 ==> s[0] != '0'
  {
    if n < 10 then [Digit(n)] else NatToString(n / 10) + [Digit(n % 10)]
  }

  lemma {:induction false} NatToStringValue(n: nat)
    ensures DigitsValue(NatToString(n)) == n
  {
    var s := NatToString(n);
    if n >= 10 {
      NatToStringValue(n / 10);
      assert s[..|s| - 1] == NatToString(n / 10);
    }
  }

  // ---------------------------------------------------------------------------
  // JavaScript string length
  // ---------------------------------------------------------------------------

  /** JavaScript's `s.length`: UTF-16 code units, two for a character beyond U+FFFF. */
  function Utf16Length(s: string): (n: nat)
    ensures |s| <= n <= 2 * |s|
  {
    if |s| == 0 then 0
    else (if s[0] as int > 0xFFFF then 2 else 1) + Utf16Length(s[1..])
  }
}
