/**
 * The JavaScript string operations the pages rely on: `trim`, `toLowerCase`,
 * `includes`, `split(',')`, `split(/\s+/)`, `join`, `String(n)` and
 * `Number(s)`, over strings as sequences of characters.
 */
module Text {
  import opened Seqs

  /** The characters `trim` removes and `\s` matches: ECMAScript WhiteSpace
      and LineTerminator. */
  predicate IsSpace(c: char)
  {
    c == ' ' || c == '\t' || c == '\n' || c == '\r' || c == '\U{000B}' || c == '\U{000C}'
    || c == '\U{00A0}' || c == '\U{1680}' || ('\U{2000}' <= c <= '\U{200A}')
    || c == '\U{2028}' || c == '\U{2029}' || c == '\U{202F}' || c == '\U{205F}'
    || c == '\U{3000}' || c == '\U{FEFF}'
  }

  predicate IsBlank(s: string)
  {
    forall i :: 0 <= i < |s| ==> IsSpace(s[i])
  }

  /* ---------------------------------------------------------------- */
  /*  trim                                                            */
  /* ---------------------------------------------------------------- */

  function TrimStart(s: string): (r: string)
    ensures |r| <= |s| && r == s[|s| - |r|..]
    ensures IsBlank(s[..|s| - |r|])
    ensures r != [] ==> !IsSpace(r[0])
  {
    if s != [] && IsSpace(s[0]) then
      var r := TrimStart(s[1..]);
      assert s[..|s| - |r|] == [s[0]] + s[1..][..|s| - 1 - |r|];
      r
    else s
  }

  function TrimEnd(s: string): (r: string)
    ensures |r| <= |s| && r == s[..|r|]
    ensures IsBlank(s[|r|..])
    ensures r != [] ==> !IsSpace(r[|r| - 1])
  {
    if s != [] && IsSpace(s[|s| - 1]) then TrimEnd(s[..|s| - 1]) else s
  }

  /** `s.trim()` */
  function Trim(s: string): string
  {
    TrimEnd(TrimStart(s))
  }

  /** `trim` cuts a blank prefix and a blank suffix off and leaves a string
      that neither starts nor ends with a space; it is empty exactly for a
      blank string. */
  lemma TrimShape(s: string)
    ensures exists i, j :: 0 <= i <= j <= |s| && Trim(s) == s[i..j] && IsBlank(s[..i]) && IsBlank(s[j..])
    ensures Trim(s) != [] ==> !IsSpace(Trim(s)[0]) && !IsSpace(Trim(s)[|Trim(s)| - 1])
    ensures Trim(s) == [] <==> IsBlank(s)
  {
    var i, j := TrimBounds(s);
    TrimEnds(s);
    TrimEmptyIffBlank(s);
  }

  /** Where in `s` its trim sits. */
  lemma TrimBounds(s: string) returns (i: nat, j: nat)
    ensures i <= j <= |s| && Trim(s) == s[i..j] && IsBlank(s[..i]) && IsBlank(s[j..])
  {
    var t := TrimStart(s);
    var e := TrimEnd(t);
    i := |s| - |t|;
    j := i + |e|;
    SliceOfSuffix(s, i, |e|);
  }

  /** Cutting a prefix off a suffix is taking a slice. */
  lemma SliceOfSuffix<T>(s: seq<T>, i: nat, n: nat)
    requires i + n <= |s|
    ensures s[i..][..n] == s[i..i + n] && s[i..][n..] == s[i + n..]
  {
  }

  lemma TrimEnds(s: string)
    ensures Trim(s) != [] ==> !IsSpace(Trim(s)[0]) && !IsSpace(Trim(s)[|Trim(s)| - 1])
  {
    var t := TrimStart(s);
    var e := TrimEnd(t);
    assert e != [] ==> e[0] == t[0];
  }

  lemma TrimEmptyIffBlank(s: string)
    ensures Trim(s) == [] <==> IsBlank(s)
  {
    var t := TrimStart(s);
    var i := |s| - |t|;
    assert t == s[i..];
    if TrimEnd(t) == [] {
      assert t[|TrimEnd(t)|..] == t;
      forall k | 0 <= k < |s|
        ensures IsSpace(s[k])
      {
        if k < i {
          assert s[k] == s[..i][k];
        } else {
          assert s[k] == t[k - i];
        }
      }
    } else {
      assert s[i] == t[0];
    }
  }

  /** A string that starts and ends with a non-space is its own trim, also
      after one leading space. */
  lemma TrimSolid(s: string)
    requires s != [] && !IsSpace(s[0]) && !IsSpace(s[|s| - 1])
    ensures Trim(s) == s && Trim(" " + s) == s
  {
    assert TrimStart(s) == s;
    assert (" " + s)[1..] == s;
    assert TrimStart(" " + s) == s;
    assert TrimEnd(s) == s;
  }

  /* ---------------------------------------------------------------- */
  /*  toLowerCase, includes                                           */
  /* ---------------------------------------------------------------- */

  function LowerChar(c: char): char
  {
    if 'A' <= c <= 'Z' then (c as int + 32) as char else c
  }

  /** `s.toLowerCase()`, for the letters A to Z. */
  function Lower(s: string): (r: string)
    ensures |r| == |s|
    ensures forall i :: 0 <= i < |s| ==> r[i] == LowerChar(s[i])
  {
    seq(|s|, i requires 0 <= i < |s| => LowerChar(s[i]))
  }

  /** `s.includes(q)` */
  predicate Contains(s: string, q: string)
  {
    exists i :: 0 <= i <= |s| - |q| && OccursAt(s, q, i)
  }

  predicate OccursAt(s: string, q: string, i: int)
  {
    0 <= i <= |s| - |q| && s[i..i + |q|] == q
  }

  lemma ContainsSelf(pre: string, q: string, post: string)
    ensures Contains(pre + q + post, q)
  {
    var s := pre + q + post;
    assert s[|pre|..|pre| + |q|] == q;
    assert OccursAt(s, q, |pre|);
  }

  /** Lower-casing both sides before `includes`, as every search box does. */
  predicate ContainsIgnoringCase(s: string, q: string)
  {
    Contains(Lower(s), Lower(q))
  }

  /* ---------------------------------------------------------------- */
  /*  split(','), join(', ')                                          */
  /* ---------------------------------------------------------------- */

  /** `s.split(sep)` for a one-character separator: the pieces between the
      separators, empty ones included (`"".split(',')` is `[""]`). */
  function Split(s: string, sep: char): (r: seq<string>)
    ensures |r| >= 1
  {
    if s == [] then [[]]
    else
      var rest := Split(s[1..], sep);
      if s[0] == sep then [[]] + rest else [[s[0]] + rest[0]] + rest[1..]
  }

  /** `parts.join(sep)` */
  function Join(parts: seq<string>, sep: string): string
  {
    if parts == [] then []
    else if |parts| == 1 then parts[0]
    else parts[0] + sep + Join(parts[1..], sep)
  }

  /** A separator ends the piece in front of it. */
  lemma {:induction false} SplitAtSeparator(a: string, sep: char, b: string)
    requires sep !in a
    ensures Split(a + [sep] + b, sep) == [a] + Split(b, sep)
  {
    if a != [] {
      assert (a + [sep] + b)[1..] == a[1..] + [sep] + b;
      SplitAtSeparator(a[1..], sep, b);
      assert [a[0]] + a[1..] == a;
    } else {
      assert (a + [sep] + b)[1..] == b;
    }
  }

  lemma {:induction false} SplitWithoutSeparator(a: string, sep: char)
    requires sep !in a
    ensures Split(a, sep) == [a]
  {
    if a != [] {
      SplitWithoutSeparator(a[1..], sep);
      assert [a[0]] + a[1..] == a;
    }
  }

  /** Splitting what `join(sep + tail)` produced returns each part, every part
      after the first with `tail` in front. */
  lemma {:induction false} SplitJoin(parts: seq<string>, sep: char, tail: string)
    requires |parts| >= 1
    requires forall i :: 0 <= i < |parts| ==> sep !in parts[i]
    requires sep !in tail
    ensures |Split(Join(parts, [sep] + tail), sep)| == |parts|
    ensures Split(Join(parts, [sep] + tail), sep)[0] == parts[0]
    ensures forall i :: 1 <= i < |parts| ==> Split(Join(parts, [sep] + tail), sep)[i] == tail + parts[i]
    decreases |parts|
  {
    if |parts| == 1 {
      SplitWithoutSeparator(parts[0], sep);
    } else {
      var rest := parts[1..];
      var tailed := [tail + rest[0]] + rest[1..];
      assert |tailed| == |rest|;
      assert forall i :: 0 <= i < |tailed| ==> sep !in tailed[i];
      SplitJoin(rest, sep, tail);
      assert Join(parts, [sep] + tail) == parts[0] + [sep] + (tail + Join(rest, [sep] + tail));
      SplitAtSeparator(parts[0], sep, tail + Join(rest, [sep] + tail));
      SplitPrefixFirst(tail, Join(rest, [sep] + tail), sep);
    }
  }

  /** Characters in front of the first separator join the first piece. */
  lemma {:induction false} SplitPrefixFirst(pre: string, s: string, sep: char)
    requires sep !in pre
    ensures |Split(pre + s, sep)| == |Split(s, sep)|
    ensures Split(pre + s, sep)[0] == pre + Split(s, sep)[0]
    ensures Split(pre + s, sep)[1..] == Split(s, sep)[1..]
  {
    if pre != [] {
      assert (pre + s)[1..] == pre[1..] + s;
      SplitPrefixFirst(pre[1..], s, sep);
      assert [pre[0]] + (pre[1..] + Split(s, sep)[0]) == pre + Split(s, sep)[0];
    } else {
      assert pre + s == s;
    }
  }

  /* ---------------------------------------------------------------- */
  /*  split(/\s+/)                                                    */
  /* ---------------------------------------------------------------- */

  /** `s.split(/\s+/)`: the pieces between maximal runs of spaces. */
  function SplitSpaces(s: string): (r: seq<string>)
    ensures |r| >= 1
  {
    if s == [] then [[]]
    else
      var rest := SplitSpaces(s[1..]);
      if !IsSpace(s[0]) then [[s[0]] + rest[0]] + rest[1..]
      else if |s| > 1 && IsSpace(s[1]) then rest
      else [[]] + rest
  }

  /** The number of words of `s`: positions holding a non-space character
      that starts the string or follows a space (`afterSpace` says whether
      the character before `s` was a space, or there was none). */
  function WordStarts(s: string, afterSpace: bool): nat
  {
    if s == [] then 0
    else (if afterSpace && !IsSpace(s[0]) then 1 else 0) + WordStarts(s[1..], IsSpace(s[0]))
  }

  lemma {:induction false} SplitSpacesCount(s: string)
    requires s != [] ==> !IsSpace(s[|s| - 1])
    ensures |SplitSpaces(s)| == WordStarts(s, true) + (if s == [] || IsSpace(s[0]) then 1 else 0)
  {
    if s != [] {
      SplitSpacesCount(s[1..]);
    }
  }

  lemma {:induction false} WordStartsTrimEnd(s: string, b: bool)
    ensures WordStarts(TrimEnd(s), b) == WordStarts(s, b)
    decreases |s|
  {
    if s != [] && IsSpace(s[|s| - 1]) {
      WordStartsTrimEnd(s[..|s| - 1], b);
      WordStartsDropLastSpace(s, b);
    }
  }

  lemma {:induction false} WordStartsDropLastSpace(s: string, b: bool)
    requires s != [] && IsSpace(s[|s| - 1])
    ensures WordStarts(s, b) == WordStarts(s[..|s| - 1], b)
  {
    if |s| > 1 {
      assert s[1..][..|s[1..]| - 1] == s[..|s| - 1][1..];
      WordStartsDropLastSpace(s[1..], IsSpace(s[0]));
    }
  }

  lemma {:induction false} WordStartsTrimStart(s: string)
    ensures WordStarts(TrimStart(s), true) == WordStarts(s, true)
  {
    if s != [] && IsSpace(s[0]) {
      WordStartsTrimStart(s[1..]);
    }
  }

  /** Splitting the trimmed text at runs of spaces yields one piece per word
      of the untrimmed text. */
  lemma SplitTrimmedCountsWords(s: string)
    requires Trim(s) != []
    ensures |SplitSpaces(Trim(s))| == WordStarts(s, true)
  {
    TrimShape(s);
    SplitSpacesCount(Trim(s));
    WordStartsTrimEnd(TrimStart(s), true);
    WordStartsTrimStart(s);
  }

  /* ---------------------------------------------------------------- */
  /*  String(n), Number(s)                                            */
  /* ---------------------------------------------------------------- */

  predicate IsDigit(c: char)
  {
    '0' <= c <= '9'
  }

  predicate AllDigits(s: string)
  {
    forall i :: 0 <= i < |s| ==> IsDigit(s[i])
  }

  /** `String(n)` for a natural number: its decimal digits. */
  function NatToString(n: nat): (r: string)
    ensures r != [] && AllDigits(r)
  {
    if n < 10 then [(48 + n) as char] else NatToString(n / 10) + [(48 + n % 10) as char]
  }

  /** The value of a string of decimal digits. */
  function DigitsValue(s: string): nat
    requires AllDigits(s)
    decreases |s|
  {
    if s == [] then 0
    else
      assert IsDigit(s[|s| - 1]);
      DigitsValue(s[..|s| - 1]) * 10 + (s[|s| - 1] as int - 48)
  }

  lemma {:induction false} DigitsOfNat(n: nat)
    ensures DigitsValue(NatToString(n)) == n
  {
    if n >= 10 {
      DigitsOfNat(n / 10);
      var d := NatToString(n / 10);
      assert (d + [(48 + n % 10) as char])[..|d|] == d;
    }
  }

  /** `Number(s)` for the integer literals a form field holds: surrounding
      spaces are ignored, an empty field is 0, a sign may lead the digits;
      anything else is `NaN` (here `None`). */
  function ParseNumber(s: string): Option<int>
  {
    var t := Trim(s);
    if t == [] then Some(0)
    else
      var sign := if t[0] == '-' then -1 else 1;
      var digits := if t[0] == '-' || t[0] == '+' then t[1..] else t;
      if digits != [] && AllDigits(digits)
      then Some(sign * DigitsValue(digits))
      else None
  }

  /** `Number(String(n)) == n` */
  lemma ParseNumberOfNat(n: nat)
    ensures ParseNumber(NatToString(n)) == Some(n)
  {
    var s := NatToString(n);
    assert !IsSpace(s[0]) && !IsSpace(s[|s| - 1]);
    assert TrimStart(s) == s;
    assert TrimEnd(s) == s;
    assert s[0] != '-' && s[0] != '+';
    DigitsOfNat(n);
  }

  /** `String(n)` for any integer. */
  function IntToString(n: int): string
  {
    if n < 0 then "-" + NatToString(-n) else NatToString(n)
  }

  /** `Number(String(n)) == n` for every integer. */
  lemma ParseNumberOfInt(n: int)
    ensures ParseNumber(IntToString(n)) == Some(n)
  {
    if n >= 0 {
      ParseNumberOfNat(n);
    } else {
      var d := NatToString(-n);
      var s := "-" + d;
      assert s[1..] == d;
      assert !IsSpace(s[0]) && !IsSpace(s[|s| - 1]);
      assert TrimStart(s) == s;
      assert TrimEnd(s) == s;
      DigitsOfNat(-n);
    }
  }
}
