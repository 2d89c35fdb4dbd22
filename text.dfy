/** The Python `str` operations the modelled code relies on (ASCII letters only). */
module Text {
  import opened Wrappers

  predicate IsUpper(ch: char) { 'A' <= ch <= 'Z' }
  predicate IsLower(ch: char) { 'a' <= ch <= 'z' }
  predicate IsLetter(ch: char) { IsUpper(ch) || IsLower(ch) }
  predicate IsDigit(ch: char) { '0' <= ch <= '9' }
  predicate IsSpace(ch: char) { ch == ' ' || ch == '\t' || ch == '\n' || ch == '\r' || ch as int == 11 || ch as int == 12 }

  function ToUpper(ch: char): char { if IsLower(ch) then (ch as int - 32) as char else ch }
  function ToLower(ch: char): char { if IsUpper(ch) then (ch as int + 32) as char else ch }

  /** `s.lower()`. */
  function Lower(s: string): (r: string)
    ensures |r| == |s| && forall i :: 0 <= i < |s| ==> r[i] == ToLower(s[i])
  {
    if s == [] then [] else [ToLower(s[0])] + Lower(s[1..])
  }

  /** `s.title()`: a letter is upper-cased after a non-letter and lower-cased after a letter. */
  function Title(s: string): (r: string)
    ensures |r| == |s|
    ensures forall i :: 0 <= i < |s| ==>
      r[i] == if i > 0 && IsLetter(s[i - 1]) then ToLower(s[i]) else ToUpper(s[i])
  {
    TitleFrom(s, false)
  }

  function TitleFrom(s: string, afterLetter: bool): (r: string)
    ensures |r| == |s|
    ensures forall i :: 0 <= i < |s| ==>
      r[i] == if (if i == 0 then afterLetter else IsLetter(s[i - 1])) then ToLower(s[i]) else ToUpper(s[i])
  {
    if s == [] then []
    else [if afterLetter then ToLower(s[0]) else ToUpper(s[0])] + TitleFrom(s[1..], IsLetter(s[0]))
  }

  /** `s.replace(a, b)` for single characters. */
  function ReplaceChar(s: string, a: char, b: char): (r: string)
    ensures |r| == |s| && forall i :: 0 <= i < |s| ==> r[i] == if s[i] == a then b else s[i]
  {
    if s == [] then [] else [if s[0] == a then b else s[0]] + ReplaceChar(s[1..], a, b)
  }

  predicate StartsWith(s: string, prefix: string) {
    |prefix| <= |s| && s[..|prefix|] == prefix
  }

  /** `s.endswith(suffix)`. */
  predicate EndsWith(s: string, suffix: string) {
    |suffix| <= |s| && s[|s| - |suffix|..] == suffix
  }

  /** `sub in s`. */
  predicate Contains(s: string, sub: string)
    decreases |s|
  {
    StartsWith(s, sub) || (s != [] && Contains(s[1..], sub))
  }

  /** `s.replace(pattern, replacement)`: non-overlapping occurrences, left to right. */
  function Replace(s: string, pattern: string, replacement: string): (r: string)
    requires pattern != []
    ensures !Contains(s, pattern) ==> r == s
    decreases |s|
  {
    if |s| < |pattern| then s
    else if s[..|pattern|] == pattern then replacement + Replace(s[|pattern|..], pattern, replacement)
    else [s[0]] + Replace(s[1..], pattern, replacement)
  }

  /** A string that does not start with the pattern keeps its first character and is replaced from the second on. */
  lemma ReplaceFirstKept(s: string, pattern: string, replacement: string)
    requires pattern != [] && |pattern| <= |s| && s[..|pattern|] != pattern
    ensures Replace(s, pattern, replacement) == [s[0]] + Replace(s[1..], pattern, replacement)
  {
  }

  /** A string whose tail contains a pattern contains it. */
  lemma ContainsTail(s: string, sub: string)
    requires s != [] && Contains(s[1..], sub)
    ensures Contains(s, sub)
  {
  }

  /** `sep.join(parts)`. */
  function Join(parts: seq<string>, sep: string): string {
    if parts == [] then ""
    else if |parts| == 1 then parts[0]
    else parts[0] + sep + Join(parts[1..], sep)
  }

  /** `s.split(sep)` on one separator character: every piece, empty pieces included. */
  function Split(s: string, sep: char): (r: seq<string>)
    ensures |r| >= 1
    ensures forall i :: 0 <= i < |r| ==> sep !in r[i]
    decreases |s|
  {
    if s == [] then [""]
    else
      var rest := Split(s[1..], sep);
      if s[0] == sep then [""] + rest else [[s[0]] + rest[0]] + rest[1..]
  }

  /** Splitting and joining back on the same separator is the identity. */
  lemma {:induction false} JoinSplit(s: string, sep: char)
    ensures Join(Split(s, sep), [sep]) == s
    decreases |s|
  {
    if s != [] {
      var rest := Split(s[1..], sep);
      JoinSplit(s[1..], sep);
      if s[0] == sep {
        assert Split(s, sep) == [""] + rest;
        assert ([""] + rest)[1..] == rest;
      } else {
        var head := [s[0]] + rest[0];
        assert Split(s, sep) == [head] + rest[1..];
        if |rest| == 1 {
          assert Join(rest, [sep]) == rest[0];
        } else {
          assert Join(rest, [sep]) == rest[0] + [sep] + Join(rest[1..], [sep]);
          assert ([head] + rest[1..])[1..] == rest[1..];
        }
      }
    }
  }

  /** Text joined by a separator splits into the pieces of both sides. */
  lemma {:induction false} SplitConcat(a: string, t: string, sep: char)
    ensures Split(a + [sep] + t, sep) == Split(a, sep) + Split(t, sep)
    decreases |a|
  {
    if a == [] {
      assert a + [sep] + t == [sep] + t;
      assert ([sep] + t)[1..] == t;
    } else {
      assert (a + [sep] + t)[0] == a[0];
      assert (a + [sep] + t)[1..] == a[1..] + [sep] + t;
      SplitConcat(a[1..], t, sep);
    }
  }

  /** Splitting text without the separator gives the text itself. */
  lemma {:induction false} SplitNoSep(s: string, sep: char)
    requires sep !in s
    ensures Split(s, sep) == [s]
    decreases |s|
  {
    if s != [] {
      SplitNoSep(s[1..], sep);
      assert [s[0]] + s[1..] == s;
    }
  }

  /** The first position whose character satisfies `stop`, or `|s|` when none does. */
  function Find(s: string, stop: char -> bool): (r: nat)
    ensures r <= |s| && (r < |s| ==> stop(s[r]))
    ensures forall j :: 0 <= j < r ==> !stop(s[j])
  {
    if s == [] || stop(s[0]) then 0 else 1 + Find(s[1..], stop)
  }

  /** Searching past a prefix in which nothing stops. */
  lemma {:induction false} FindAfter(a: string, b: string, stop: char -> bool)
    requires forall j :: 0 <= j < |a| ==> !stop(a[j])
    ensures Find(a + b, stop) == |a| + Find(b, stop)
  {
    if a != [] {
      assert (a + b)[0] == a[0] && !stop(a[0]);
      assert (a + b)[1..] == a[1..] + b;
      FindAfter(a[1..], b, stop);
      assert Find(a + b, stop) == 1 + Find(a[1..] + b, stop);
    } else {
      assert a + b == b;
    }
  }

  /** Leading and trailing whitespace removed (`s.strip()`). */
  function Strip(s: string): (r: string)
    ensures |r| <= |s|
    ensures r != [] ==> !IsSpace(r[0]) && !IsSpace(r[|r| - 1])
  {
    RStripSpace(LStripSpace(s))
  }

  function LStripSpace(s: string): (r: string)
    ensures |r| <= |s| && (r != [] ==> !IsSpace(r[0]))
    ensures r == s[|s| - |r|..]
  {
    if s != [] && IsSpace(s[0]) then LStripSpace(s[1..]) else s
  }

  function RStripSpace(s: string): (r: string)
    ensures |r| <= |s| && (r != [] ==> !IsSpace(r[|r| - 1]))
    ensures r == s[..|r|]
  {
    if s != [] && IsSpace(s[|s| - 1]) then RStripSpace(s[..|s| - 1]) else s
  }

  /** Trailing whitespace is never taken from a prefix that ends in a non-space. */
  lemma {:induction false} RStripKeepsPrefix(s: string, prefix: string)
    requires StartsWith(s, prefix) && prefix != [] && !IsSpace(prefix[|prefix| - 1])
    ensures StartsWith(RStripSpace(s), prefix)
    decreases |s|
  {
    if s != [] && IsSpace(s[|s| - 1]) {
      assert s[|prefix| - 1] == prefix[|prefix| - 1];
      assert s[..|s| - 1][..|prefix|] == prefix;
      RStripKeepsPrefix(s[..|s| - 1], prefix);
    }
  }

  /** A prefix with no whitespace at either end survives `strip()`. */
  lemma StripKeepsPrefix(s: string, prefix: string)
    requires StartsWith(s, prefix) && prefix != [] && !IsSpace(prefix[0]) && !IsSpace(prefix[|prefix| - 1])
    ensures StartsWith(Strip(s), prefix)
  {
    assert s[0] == prefix[0];
    assert LStripSpace(s) == s;
    RStripKeepsPrefix(s, prefix);
  }

  /** `s.rstrip(ch)`. */
  function RStrip(s: string, ch: char): (r: string)
    ensures |r| <= |s| && r == s[..|r|] && (r != [] ==> r[|r| - 1] != ch)
    ensures forall i :: |r| <= i < |s| ==> s[i] == ch
  {
    if s != [] && s[|s| - 1] == ch then RStrip(s[..|s| - 1], ch) else s
  }

  /** Decimal rendering of a natural number (`str(n)`). */
  function NatToString(n: nat): (r: string)
    ensures r != [] && forall i :: 0 <= i < |r| ==> IsDigit(r[i])
  {
    if n < 10 then [('0' as int + n) as char]
    else NatToString(n / 10) + [('0' as int + n % 10) as char]
  }

  /** `int(s)` for a string of decimal digits with optional surrounding whitespace. */
  function ParseNat(s: string): Option<nat>
  {
    var t := Strip(s);
    if t != [] && forall i :: 0 <= i < |t| ==> IsDigit(t[i]) then Some(DigitsValue(t)) else None
  }

  /** `int(s)` for a string: optional surrounding whitespace, an optional sign, then decimal digits. */
  function ParseInt(s: string): (r: Option<int>)
    ensures ParseNat(s).Some? ==> r == Some(ParseNat(s).value)
  {
    var t := Strip(s);
    if t != [] && (t[0] == '-' || t[0] == '+') then
      var digits := t[1..];
      if digits != [] && forall i :: 0 <= i < |digits| ==> IsDigit(digits[i]) then
        var n: int := DigitsValue(digits);
        Some(if t[0] == '-' then -n else n)
      else None
    else ParseNat(s)
  }

  function DigitsValue(t: string): nat
    requires forall i :: 0 <= i < |t| ==> IsDigit(t[i])
  {
    if t == [] then 0
    else
      assert IsDigit(t[|t| - 1]);
      DigitsValue(t[..|t| - 1]) * 10 + (t[|t| - 1] as int - '0' as int)
  }

  lemma {:induction false} ParseNatToString(n: nat)
    ensures ParseNat(NatToString(n)) == Some(n)
  {
    var s := NatToString(n);
    assert LStripSpace(s) == s;
    assert RStripSpace(s) == s;
    DigitsOfNatToString(n);
  }

  lemma {:induction false} DigitsOfNatToString(n: nat)
    ensures DigitsValue(NatToString(n)) == n
  {
    if n >= 10 {
      DigitsOfNatToString(n / 10);
      var s := NatToString(n);
      assert s[..|s| - 1] == NatToString(n / 10);
    }
  }
}
