/** Python `str` operations that the tutor's text layer relies on, written out
    with the semantics CPython gives them: `split` and `replace` scan left to
    right and never overlap, `strip` removes Unicode whitespace at both ends,
    `in` is substring containment, `int()` accepts an optional sign and digits.
    Case mapping is restricted to ASCII letters. */
module Text {

  datatype Option<+T> = None | Some(value: T)

  // ---------------------------------------------------------------------------
  // Characters
  // ---------------------------------------------------------------------------

  /** The characters for which Python's `str.isspace()` is true. */
  predicate IsSpace(c: char) {
    c == ' ' || ('\t' <= c <= '\r') || ('\U{1C}' <= c <= '\U{1F}')
    || c == '\U{85}' || c == '\U{A0}' || c == '\U{1680}'
    || ('\U{2000}' <= c <= '\U{200A}') || c == '\U{2028}' || c == '\U{2029}'
    || c == '\U{202F}' || c == '\U{205F}' || c == '\U{3000}'
  }

  predicate AllSpace(s: string) {
    forall i :: 0 <= i < |s| ==> IsSpace(s[i])
  }

  predicate IsDigit(c: char) {
    '0' <= c <= '9'
  }

  function UpperChar(c: char): char {
    if 'a' <= c <= 'z' then (c as int - 32) as char else c
  }

  function LowerChar(c: char): char {
    if 'A' <= c <= 'Z' then (c as int + 32) as char else c
  }

  /** `s.upper()`, on ASCII letters. */
  function Upper(s: string): (r: string)
    ensures |r| == |s|
  {
    seq(|s|, i requires 0 <= i < |s| => UpperChar(s[i]))
  }

  /** `s.lower()`, on ASCII letters. */
  function Lower(s: string): (r: string)
    ensures |r| == |s|
  {
    seq(|s|, i requires 0 <= i < |s| => LowerChar(s[i]))
  }

  // ---------------------------------------------------------------------------
  // Prefixes and containment
  // ---------------------------------------------------------------------------

  /** `s.startswith(prefix)` */
  predicate StartsWith(s: string, prefix: string) {
    |prefix| <= |s| && s[..|prefix|] == prefix
  }

  /** `pat in s` */
  predicate Contains(s: string, pat: string)
    decreases |s|
  {
    StartsWith(s, pat) || (|s| > 0 && Contains(s[1..], pat))
  }

  lemma {:induction false} ContainsDrop(s: string, j: nat, pat: string)
    requires j <= |s| && Contains(s[j..], pat)
    ensures Contains(s, pat)
    decreases j
  {
    if j > 0 {
      assert s[1..][j - 1..] == s[j..];
      ContainsDrop(s[1..], j - 1, pat);
    }
  }

  /** Text that contains `pat` still contains it with more text after it. */
  lemma {:induction false} ContainsAppend(a: string, b: string, pat: string)
    requires Contains(a, pat)
    ensures Contains(a + b, pat)
    decreases |a|
  {
    if StartsWith(a, pat) {
      assert (a + b)[..|pat|] == a[..|pat|];
    } else {
      assert (a + b)[1..] == a[1..] + b;
      ContainsAppend(a[1..], b, pat);
    }
  }

  /** ... and with more text before it. */
  lemma ContainsPrepend(a: string, b: string, pat: string)
    requires Contains(b, pat)
    ensures Contains(a + b, pat)
  {
    assert (a + b)[|a|..] == b;
    ContainsDrop(a + b, |a|, pat);
  }

  /** Containment is transitive: an infix of an infix is an infix. */
  lemma {:induction false} ContainsTrans(s: string, mid: string, pat: string)
    requires Contains(s, mid) && Contains(mid, pat)
    ensures Contains(s, pat)
    decreases |s|
  {
    if StartsWith(s, mid) {
      assert s == mid + s[|mid|..];
      ContainsAppend(mid, s[|mid|..], pat);
    } else {
      ContainsTrans(s[1..], mid, pat);
    }
  }

  /** An occurrence of `pat` in `x + y` that does not lie inside `x` or inside
      `y` would have to cover the character `c` at the seam, which `pat` lacks. */
  lemma {:induction false} ContainsAcrossSeam(x: string, y: string, pat: string, c: char)
    requires c !in pat
    requires (|x| > 0 && x[|x| - 1] == c) || (|y| > 0 && y[0] == c)
    requires Contains(x + y, pat)
    ensures Contains(x, pat) || Contains(y, pat)
    decreases |x|
  {
    if |x| == 0 {
      assert x + y == y;
    } else {
      if |x| < |pat| <= |x + y| {
        // the first |pat| characters of x + y cover the seam character
        if x[|x| - 1] == c {
          assert (x + y)[..|pat|][|x| - 1] == c;
        } else {
          assert (x + y)[..|pat|][|x|] == c;
        }
      }
      if StartsWith(x + y, pat) {
        assert x[..|pat|] == (x + y)[..|pat|];
      }
    }
    if |x| > 0 && !StartsWith(x + y, pat) {
      assert (x + y)[1..] == x[1..] + y;
      if |x| == 1 {
        assert x[1..] + y == y;
      } else {
        ContainsAcrossSeam(x[1..], y, pat, c);
      }
    }
  }

  /** Two texts without `pat` do not form it across a seam character it lacks. */
  lemma NotContainsConcat(x: string, y: string, pat: string, c: char)
    requires c !in pat
    requires (|x| > 0 && x[|x| - 1] == c) || (|y| > 0 && y[0] == c)
    requires !Contains(x, pat) && !Contains(y, pat)
    ensures !Contains(x + y, pat)
  {
    if Contains(x + y, pat) {
      ContainsAcrossSeam(x, y, pat, c);
    }
  }

  lemma {:induction false} ShortNotContained(s: string, pat: string)
    requires |s| < |pat|
    ensures !Contains(s, pat)
    decreases |s|
  {
    if |s| > 0 {
      ShortNotContained(s[1..], pat);
    }
  }

  /** Text as long as the pattern contains it only by being it. */
  lemma SameLengthNotContained(s: string, pat: string)
    requires |s| == |pat| && s != pat
    ensures !Contains(s, pat)
  {
    if |s| > 0 {
      ShortNotContained(s[1..], pat);
    }
  }

  /** A pattern whose first character never occurs in `s` does not occur in `s`. */
  lemma {:induction false} AbsentHeadNotContained(s: string, pat: string)
    requires |pat| > 0 && pat[0] !in s
    ensures !Contains(s, pat)
    decreases |s|
  {
    if |s| > 0 {
      AbsentHeadNotContained(s[1..], pat);
    }
  }

  lemma {:induction false} UpperContains(s: string, pat: string)
    requires Contains(s, pat)
    ensures Contains(Upper(s), Upper(pat))
    decreases |s|
  {
    if StartsWith(s, pat) {
      assert Upper(s)[..|pat|] == Upper(pat);
    } else {
      assert Upper(s)[1..] == Upper(s[1..]);
      UpperContains(s[1..], pat);
    }
  }

  /** Python's `s[:k]` for any integer `k`: a negative `k` counts from the end. */
  function SliceTo<T>(s: seq<T>, k: int): (r: seq<T>)
    ensures 0 <= k ==> |r| == if k < |s| then k else |s|
    ensures k < 0 ==> |r| == if -k < |s| then |s| + k else 0
    ensures r == s[..|r|]
  {
    if k >= 0 then (if k < |s| then s[..k] else s)
    else if -k < |s| then s[..|s| + k]
    else []
  }

  // ---------------------------------------------------------------------------
  // split / join
  // ---------------------------------------------------------------------------

  /** `sep.join(parts)` */
  function Join(parts: seq<string>, sep: string): string
    decreases |parts|
  {
    if |parts| == 0 then ""
    else if |parts| == 1 then parts[0]
    else parts[0] + sep + Join(parts[1..], sep)
  }

  /** `s.split(sep)` for a non-empty separator: the separator is searched from
      the left, and scanning resumes after each occurrence it finds. */
  function Split(s: string, sep: string): (parts: seq<string>)
    requires |sep| > 0
    ensures |parts| >= 1
    decreases |s|
  {
    if |s| < |sep| then [s]
    else if s[..|sep|] == sep then [""] + Split(s[|sep|..], sep)
    else
      var rest := Split(s[1..], sep);
      [[s[0]] + rest[0]] + rest[1..]
  }

  /** Joining the pieces of a split with the same separator gives back the text. */
  lemma {:induction false} JoinSplit(s: string, sep: string)
    requires |sep| > 0
    ensures Join(Split(s, sep), sep) == s
    decreases |s|
  {
    if |s| < |sep| {
    } else if s[..|sep|] == sep {
      var rest := Split(s[|sep|..], sep);
      JoinSplit(s[|sep|..], sep);
      assert ([""] + rest)[1..] == rest;
      assert s == "" + sep + s[|sep|..];
    } else {
      var rest := Split(s[1..], sep);
      JoinSplit(s[1..], sep);
      var parts := [[s[0]] + rest[0]] + rest[1..];
      if |rest| == 1 {
        assert s == [s[0]] + s[1..];
      } else {
        assert parts[1..] == rest[1..];
        assert Join(rest, sep) == rest[0] + sep + Join(rest[1..], sep);
        assert s == [s[0]] + s[1..];
      }
    }
  }

  /** A join begins with its first part. */
  lemma JoinHead(parts: seq<string>, sep: string)
    requires |parts| > 0
    ensures StartsWith(Join(parts, sep), parts[0])
  {
    if |parts| > 1 {
      var tail := sep + Join(parts[1..], sep);
      assert Join(parts, sep) == parts[0] + tail;
      assert (parts[0] + tail)[..|parts[0]|] == parts[0];
    }
  }

  /** Joining one more part adds the separator and that part at the end. */
  lemma {:induction false} JoinSnoc(parts: seq<string>, last: string, sep: string)
    requires |parts| > 0
    ensures Join(parts + [last], sep) == Join(parts, sep) + sep + last
    decreases |parts|
  {
    var longer := parts + [last];
    assert longer[0] == parts[0];
    if |parts| > 1 {
      assert longer[1..] == parts[1..] + [last];
      JoinSnoc(parts[1..], last, sep);
    } else {
      assert longer[1..] == [last];
    }
  }

  /** Every part of a join is an infix of the joined text. */
  lemma {:induction false} JoinContainsPart(parts: seq<string>, sep: string, k: nat)
    requires k < |parts|
    ensures Contains(Join(parts, sep), parts[k])
    decreases |parts|
  {
    if |parts| == 1 {
      assert StartsWith(parts[0], parts[0]);
    } else if k == 0 {
      var tail := sep + Join(parts[1..], sep);
      assert Join(parts, sep) == parts[0] + tail;
      assert (parts[0] + tail)[..|parts[0]|] == parts[0];
    } else {
      JoinContainsPart(parts[1..], sep, k - 1);
      ContainsPrepend(parts[0] + sep, Join(parts[1..], sep), parts[k]);
    }
  }

  /** Every piece of a split is an infix of the text that was split. */
  lemma SplitPartInfix(s: string, sep: string, k: nat)
    requires |sep| > 0 && k < |Split(s, sep)|
    ensures Contains(s, Split(s, sep)[k])
  {
    JoinSplit(s, sep);
    JoinContainsPart(Split(s, sep), sep, k);
  }

  /** What the upper-cased form of one piece of a split contains, the
      upper-cased whole contains too. */
  lemma UpperPartInfix(s: string, sep: string, k: nat, pat: string)
    requires |sep| > 0 && k < |Split(s, sep)|
    requires Contains(Upper(Split(s, sep)[k]), pat)
    ensures Contains(Upper(s), pat)
  {
    SplitPartInfix(s, sep, k);
    UpperContains(s, Split(s, sep)[k]);
    ContainsTrans(Upper(s), Upper(Split(s, sep)[k]), pat);
  }

  /** Text without the separator is not split at all. */
  lemma {:induction false} SplitNoSep(s: string, sep: string)
    requires |sep| > 0 && !Contains(s, sep)
    ensures Split(s, sep) == [s]
    decreases |s|
  {
    if |s| >= |sep| {
      assert !StartsWith(s, sep);
      SplitNoSep(s[1..], sep);
      assert [s[0]] + s[1..] == s;
    }
  }

  /** The first separator found is the first one after a stretch `a` in which
      none starts: `a` holds none, and its last character cannot begin one. */
  lemma {:induction false} SplitAtSep(a: string, sep: string, b: string)
    requires |sep| > 0 && !Contains(a, sep)
    requires |a| == 0 || a[|a| - 1] !in sep
    ensures Split(a + sep + b, sep) == [a] + Split(b, sep)
    decreases |a|
  {
    var s := a + sep + b;
    if |a| == 0 {
      assert s == sep + b;
      assert s[..|sep|] == sep && s[|sep|..] == b;
    } else {
      if |sep| <= |a| {
        assert a[..|sep|] == s[..|sep|];
      } else {
        assert s[..|sep|][|a| - 1] == a[|a| - 1];
      }
      assert s[..|sep|] != sep;
      assert s[1..] == a[1..] + sep + b;
      if !Contains(a[1..], sep) {
        SplitAtSep(a[1..], sep, b);
        assert [s[0]] + a[1..] == a;
      }
    }
  }

  /** Characters that cannot begin a separator are simply carried into the
      first piece. */
  lemma {:induction false} SplitPrefix(x: string, y: string, sep: string)
    requires |sep| > 0 && sep[0] !in x
    ensures Split(x + y, sep) == [x + Split(y, sep)[0]] + Split(y, sep)[1..]
    decreases |x|
  {
    if |x| == 0 {
      assert x + y == y;
      assert x + Split(y, sep)[0] == Split(y, sep)[0];
      assert [x + Split(y, sep)[0]] + Split(y, sep)[1..] == Split(y, sep);
    } else {
      var s := x + y;
      assert s[1..] == x[1..] + y;
      SplitPrefix(x[1..], y, sep);
      if |s| >= |sep| {
        assert s[0] != sep[0];
        assert s[..|sep|][0] == s[0];
      } else {
        ShortNotContained(y, sep);
        SplitNoSep(y, sep);
      }
      assert [s[0]] + (x[1..] + Split(y, sep)[0]) == x + Split(y, sep)[0];
    }
  }

  // ---------------------------------------------------------------------------
  // replace(label, "")
  // ---------------------------------------------------------------------------

  /** `s.replace(pat, "")`: every occurrence found scanning from the left is
      dropped, and the scan does not look again at the text that results. */
  function RemoveAll(s: string, pat: string): (r: string)
    requires |pat| > 0
    ensures |r| <= |s|
    decreases |s|
  {
    if |s| < |pat| then s
    else if s[..|pat|] == pat then RemoveAll(s[|pat|..], pat)
    else [s[0]] + RemoveAll(s[1..], pat)
  }

  lemma {:induction false} RemoveAllAbsent(s: string, pat: string)
    requires |pat| > 0 && !Contains(s, pat)
    ensures RemoveAll(s, pat) == s
    decreases |s|
  {
    if |s| >= |pat| {
      assert !StartsWith(s, pat);
      RemoveAllAbsent(s[1..], pat);
      assert [s[0]] + s[1..] == s;
    }
  }

  /** Text in which the pattern's first character never occurs passes through. */
  lemma {:induction false} RemoveAllSkip(x: string, y: string, pat: string)
    requires |pat| > 0 && pat[0] !in x
    ensures RemoveAll(x + y, pat) == x + RemoveAll(y, pat)
    decreases |x|
  {
    if |x| > 0 {
      var s := x + y;
      assert s[1..] == x[1..] + y;
      RemoveAllSkip(x[1..], y, pat);
      if |s| >= |pat| {
        assert s[0] != pat[0];
        assert s[..|pat|] != pat;
        assert [s[0]] + (x[1..] + RemoveAll(y, pat)) == x + RemoveAll(y, pat);
      } else {
        RemoveAllAbsentShort(y, pat);
        assert [s[0]] + x[1..] + y == s;
      }
    } else {
      assert x + y == y;
    }
  }

  lemma RemoveAllAbsentShort(s: string, pat: string)
    requires 0 < |pat| && |s| < |pat|
    ensures RemoveAll(s, pat) == s
  {
  }

  /** Something is removed exactly when the pattern occurs at all. */
  lemma {:induction false} RemoveAllShrinks(s: string, pat: string)
    requires |pat| > 0
    ensures |RemoveAll(s, pat)| < |s| <==> Contains(s, pat)
    decreases |s|
  {
    if |s| < |pat| {
      ShortNotContained(s, pat);
    } else if s[..|pat|] != pat {
      RemoveAllShrinks(s[1..], pat);
    }
  }

  /** An occurrence at the very front is dropped. */
  lemma RemoveAllFront(pat: string, y: string)
    requires |pat| > 0
    ensures RemoveAll(pat + y, pat) == RemoveAll(y, pat)
  {
    assert (pat + y)[..|pat|] == pat && (pat + y)[|pat|..] == y;
  }

  // ---------------------------------------------------------------------------
  // strip
  // ---------------------------------------------------------------------------

  /** `s.lstrip()`: the leading whitespace removed. */
  function LStrip(s: string): (r: string)
    ensures |r| <= |s|
    decreases |s|
  {
    if |s| > 0 && IsSpace(s[0]) then LStrip(s[1..]) else s
  }

  /** `s.rstrip()`: the trailing whitespace removed. */
  function RStrip(s: string): (r: string)
    ensures |r| <= |s|
    decreases |s|
  {
    if |s| > 0 && IsSpace(s[|s| - 1]) then RStrip(s[..|s| - 1]) else s
  }

  /** `s.strip()` */
  function Strip(s: string): (r: string)
    ensures |r| <= |s|
  {
    RStrip(LStrip(s))
  }

  /** `lstrip()` removes a leading run of whitespace and stops at the first
      other character. */
  lemma {:induction false} LStripShape(s: string)
    ensures LStrip(s) == s[|s| - |LStrip(s)|..]
    ensures AllSpace(s[..|s| - |LStrip(s)|])
    ensures |LStrip(s)| > 0 ==> !IsSpace(LStrip(s)[0])
    decreases |s|
  {
    if |s| > 0 && IsSpace(s[0]) {
      LStripShape(s[1..]);
      var k := |s| - |LStrip(s)|;
      assert s[1..][..k - 1] == s[1..k];
      assert s[1..][k - 1..] == s[k..];
    }
  }

  /** `rstrip()` removes a trailing run of whitespace and stops at the last
      other character. */
  lemma {:induction false} RStripShape(s: string)
    ensures RStrip(s) == s[..|RStrip(s)|]
    ensures AllSpace(s[|RStrip(s)|..])
    ensures |RStrip(s)| > 0 ==> !IsSpace(RStrip(s)[|RStrip(s)| - 1])
    decreases |s|
  {
    if |s| > 0 && IsSpace(s[|s| - 1]) {
      var t := s[..|s| - 1];
      RStripShape(t);
      var k := |RStrip(s)|;
      assert t[..k] == s[..k];
      assert t[k..] + [s[|s| - 1]] == s[k..];
    }
  }

  /** `strip()` keeps exactly the text between the leading and the trailing
      whitespace: neither end of the result is a space, and only whitespace
      was removed on either side. */
  lemma StripShape(s: string)
    ensures var i := |s| - |LStrip(s)|;
      var r := Strip(s);
      i + |r| <= |s| && r == s[i..i + |r|] && AllSpace(s[..i]) && AllSpace(s[i + |r|..])
      && (|r| > 0 ==> !IsSpace(r[0]) && !IsSpace(r[|r| - 1]))
  {
    var t := LStrip(s);
    var r := RStrip(t);
    var i := |s| - |t|;
    LStripShape(s);
    RStripShape(t);
    assert t[..|r|] == s[i..i + |r|];
    assert t[|r|..] == s[i + |r|..];
  }

  lemma {:induction false} LStripSpaces(ws: string, y: string)
    requires AllSpace(ws)
    ensures LStrip(ws + y) == LStrip(y)
    decreases |ws|
  {
    if |ws| == 0 {
      assert ws + y == y;
    } else {
      assert (ws + y)[1..] == ws[1..] + y;
      LStripSpaces(ws[1..], y);
    }
  }

  lemma {:induction false} RStripSpaces(y: string, ws: string)
    requires AllSpace(ws)
    ensures RStrip(y + ws) == RStrip(y)
    decreases |ws|
  {
    if |ws| == 0 {
      assert y + ws == y;
    } else {
      var s := y + ws;
      assert s[..|s| - 1] == y + ws[..|ws| - 1];
      RStripSpaces(y, ws[..|ws| - 1]);
    }
  }

  /** Once a non-space character is reached, what follows is kept as it is. */
  lemma {:induction false} LStripAppend(v: string, w: string)
    requires !AllSpace(v)
    ensures LStrip(v + w) == LStrip(v) + w
    decreases |v|
  {
    if IsSpace(v[0]) {
      assert (v + w)[1..] == v[1..] + w;
      LStripAppend(v[1..], w);
    }
  }

  lemma {:induction false} LStripAllSpace(v: string)
    requires AllSpace(v)
    ensures LStrip(v) == ""
    decreases |v|
  {
    if |v| > 0 {
      LStripAllSpace(v[1..]);
    }
  }

  /** Whitespace around a value does not survive `strip()`. */
  lemma StripAround(ws1: string, v: string, ws2: string)
    requires AllSpace(ws1) && AllSpace(ws2)
    ensures Strip(ws1 + v + ws2) == Strip(v)
  {
    assert ws1 + v + ws2 == ws1 + (v + ws2);
    LStripSpaces(ws1, v + ws2);
    if AllSpace(v) {
      assert AllSpace(v + ws2);
      LStripAllSpace(v + ws2);
      LStripAllSpace(v);
    } else {
      LStripAppend(v, ws2);
      RStripSpaces(LStrip(v), ws2);
    }
  }

  lemma {:induction false} RStripKeepsHead(s: string)
    requires |s| > 0 && !IsSpace(s[0])
    ensures |RStrip(s)| > 0 && RStrip(s)[0] == s[0]
    decreases |s|
  {
    if IsSpace(s[|s| - 1]) {
      RStripKeepsHead(s[..|s| - 1]);
    }
  }

  /** The first character left by `strip()` is the first non-space one. */
  lemma StripHead(ws: string, c: char, rest: string)
    requires AllSpace(ws) && !IsSpace(c)
    ensures |Strip(ws + [c] + rest)| > 0 && Strip(ws + [c] + rest)[0] == c
  {
    assert ws + [c] + rest == ws + ([c] + rest);
    LStripSpaces(ws, [c] + rest);
    RStripKeepsHead([c] + rest);
  }

  // ---------------------------------------------------------------------------
  // Integers: str(n) and int(s)
  // ---------------------------------------------------------------------------

  const Digits := "0123456789"

  /** `str(n)` for a natural number. */
  function NatToString(n: nat): (r: string)
    ensures |r| > 0
    decreases n
  {
    if n < 10 then [Digits[n]] else NatToString(n / 10) + [Digits[n % 10]]
  }

  /** `str(n)` */
  function IntToString(n: int): string {
    if n < 0 then "-" + NatToString(-n) else NatToString(n)
  }

  predicate IsDigits(s: string) {
    |s| > 0 && forall i :: 0 <= i < |s| ==> IsDigit(s[i])
  }

  function DigitValue(c: char): (d: nat)
    requires IsDigit(c)
    ensures d < 10
  {
    c as int - '0' as int
  }

  function DigitsValue(s: string): nat
    requires forall i :: 0 <= i < |s| ==> IsDigit(s[i])
    decreases |s|
  {
    if |s| == 0 then 0
    else DigitsValue(s[..|s| - 1]) * 10 + DigitValue(s[|s| - 1])
  }

  /** The characters `int()` skips around a number. CPython's `str.isspace()`
      also holds for U+001C..U+001F, but its integer parser keeps those four
      as they are and then rejects them. */
  predicate IntSpace(c: char) {
    IsSpace(c) && !('\U{1C}' <= c <= '\U{1F}')
  }

  /** The leading characters `int()` skips removed. */
  function IntLStrip(s: string): (r: string)
    ensures |r| <= |s|
    decreases |s|
  {
    if |s| > 0 && IntSpace(s[0]) then IntLStrip(s[1..]) else s
  }

  /** The trailing characters `int()` skips removed. */
  function IntRStrip(s: string): (r: string)
    ensures |r| <= |s|
    decreases |s|
  {
    if |s| > 0 && IntSpace(s[|s| - 1]) then IntRStrip(s[..|s| - 1]) else s
  }

  /** The default of `sys.get_int_max_str_digits()`: `int()` refuses decimal
      text with more digits than this, and `str()` refuses to write them. */
  const MaxStrDigits := 4300

  /** `str(n)` succeeds: `|n|` has at most `MaxStrDigits` digits. */
  predicate WithinStrDigits(n: int) {
    |NatToString(if n < 0 then -n else n)| <= MaxStrDigits
  }

  /** `int(s)`, restricted to an optional sign followed by at most
      `MaxStrDigits` ASCII digits, with the whitespace `int()` skips allowed
      around them; anything else is a `ValueError` (None). */
  function ParseInt(s: string): Option<int> {
    var t := IntRStrip(IntLStrip(s));
    if |t| > 0 && (t[0] == '+' || t[0] == '-') then
      if IsDigits(t[1..]) && |t| - 1 <= MaxStrDigits then
        var magnitude: int := DigitsValue(t[1..]);
        Some(if t[0] == '-' then -magnitude else magnitude)
      else None
    else if IsDigits(t) && |t| <= MaxStrDigits then Some(DigitsValue(t))
    else None
  }

  lemma {:induction false} NatToStringDigits(n: nat)
    ensures IsDigits(NatToString(n)) && DigitsValue(NatToString(n)) == n
    decreases n
  {
    if n >= 10 {
      NatToStringDigits(n / 10);
      var s := NatToString(n);
      assert s[..|s| - 1] == NatToString(n / 10);
    }
  }

  lemma NoSpaceStripped(s: string)
    requires |s| > 0 && !IsSpace(s[0]) && !IsSpace(s[|s| - 1])
    ensures Strip(s) == s
  {
  }

  /** `int(str(n)) == n` for every n that `str()` can write. */
  lemma ParseIntToString(n: int)
    requires WithinStrDigits(n)
    ensures ParseInt(IntToString(n)) == Some(n)
  {
    var m: nat := if n < 0 then -n else n;
    NatToStringDigits(m);
    var d := NatToString(m);
    if n < 0 {
      var t := "-" + d;
      assert t[0] == '-' && t[1..] == d && t[|t| - 1] == d[|d| - 1];
      IntStripKeeps(t);
    } else {
      IntStripKeeps(d);
    }
  }

  /** Text that starts and ends with a character `int()` does not skip is
      left as it is by the trimming. */
  lemma IntStripKeeps(t: string)
    requires |t| > 0 && !IntSpace(t[0]) && !IntSpace(t[|t| - 1])
    ensures IntRStrip(IntLStrip(t)) == t
  {
  }

  /** Text that starts with a character that is no blank `int()` skips, no
      sign and no digit is not an integer. */
  lemma ParseIntRejects(s: string)
    requires |s| > 0 && !IntSpace(s[0]) && !IsDigit(s[0]) && s[0] != '+' && s[0] != '-'
    ensures ParseInt(s) == None
  {
    assert s == "" + [s[0]] + s[1..];
    ParseIntRejectsHead("", s[0], s[1..]);
  }

  /** A file, group, record or unit separator is whitespace to `strip()` but
      not to `int()`: "\x1c5" is no integer, though "\x1c5".strip() == "5". */
  lemma SeparatorNotInteger()
    ensures ParseInt("\U{1C}5") == None
    ensures Strip("\U{1C}5") == "5"
  {
    ParseIntRejects("\U{1C}5");
  }

  /** Digits past the limit are a `ValueError` however well formed:
      `int("1" * 4301)` raises. */
  lemma TooManyDigits(s: string)
    requires IsDigits(s) && |s| > MaxStrDigits
    ensures ParseInt(s) == None
  {
    IntStripKeeps(s);
  }

  lemma {:induction false} IntRStripKeepsHead(s: string)
    requires |s| > 0 && !IntSpace(s[0])
    ensures |IntRStrip(s)| > 0 && IntRStrip(s)[0] == s[0]
    decreases |s|
  {
    if IntSpace(s[|s| - 1]) {
      IntRStripKeepsHead(s[..|s| - 1]);
    }
  }

  /** After whitespace, the first character `int()` does not skip is either
      the first non-space one or a separator among the whitespace. */
  lemma {:induction false} IntLStripHead(ws: string, c: char, rest: string)
    requires AllSpace(ws) && !IntSpace(c)
    ensures var t := IntLStrip(ws + [c] + rest);
      |t| > 0 && !IntSpace(t[0]) && (t[0] == c || '\U{1C}' <= t[0] <= '\U{1F}')
    decreases |ws|
  {
    if |ws| > 0 && IntSpace(ws[0]) {
      assert (ws + [c] + rest)[1..] == ws[1..] + [c] + rest;
      IntLStripHead(ws[1..], c, rest);
    }
  }

  /** Text whose first character that `int()` does not skip is neither a
      sign nor a digit is not an integer. */
  lemma ParseIntRejectsHead(ws: string, c: char, rest: string)
    requires AllSpace(ws) && !IntSpace(c) && !IsDigit(c) && c != '+' && c != '-'
    ensures ParseInt(ws + [c] + rest) == None
  {
    IntLStripHead(ws, c, rest);
    IntRStripKeepsHead(IntLStrip(ws + [c] + rest));
  }

  // ---------------------------------------------------------------------------
  // First-match scans over lines
  // ---------------------------------------------------------------------------

  /** The verdict of the first line that `decide` has an opinion about. */
  function FirstDecided<T>(lines: seq<string>, decide: string -> Option<T>): (r: Option<T>)
    ensures r.Some? ==> exists k :: 0 <= k < |lines| && r == decide(lines[k])
    decreases |lines|
  {
    if |lines| == 0 then None
    else if decide(lines[0]).Some? then decide(lines[0])
    else FirstDecided(lines[1..], decide)
  }

  lemma {:induction false} FirstDecidedAt<T>(lines: seq<string>, decide: string -> Option<T>, k: nat)
    requires k < |lines| && decide(lines[k]).Some?
    requires forall j :: 0 <= j < k ==> decide(lines[j]).None?
    ensures FirstDecided(lines, decide) == decide(lines[k])
    decreases k
  {
    if k > 0 {
      FirstDecidedAt(lines[1..], decide, k - 1);
    }
  }

  lemma {:induction false} FirstDecidedNone<T>(lines: seq<string>, decide: string -> Option<T>)
    ensures FirstDecided(lines, decide).None? <==> forall j :: 0 <= j < |lines| ==> decide(lines[j]).None?
    decreases |lines|
  {
    if |lines| > 0 {
      FirstDecidedNone(lines[1..], decide);
      if decide(lines[0]).None? && FirstDecided(lines, decide).None? {
        forall j | 0 <= j < |lines| ensures decide(lines[j]).None? {
          if j > 0 { assert lines[j] == lines[1..][j - 1]; }
        }
      }
    }
  }
}
