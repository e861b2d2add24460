/**
 * The handful of Python string operations the modelled code relies on:
 * str.isspace / `\s`, str.strip, str.split(sep), str.split(), str.join,
 * the `in` substring test, str.lower / str.upper, str(int) and int(digits).
 * Character classes follow Python on the ASCII range.
 */
module Text {

  /** Python's str.isspace (and the regex class `\s`) restricted to ASCII. */
  predicate IsSpace(c: char) {
    c == ' ' || c == '\t' || c == '\n' || c == '\r' || c == '\U{0B}' || c == '\U{0C}'
    || ('\U{1C}' <= c <= '\U{1F}')
  }

  /** The regex class `\d` on ASCII. */
  predicate IsDigit(c: char) {
    '0' <= c <= '9'
  }

  predicate IsLowerLetter(c: char) {
    'a' <= c <= 'z'
  }

  predicate IsUpperLetter(c: char) {
    'A' <= c <= 'Z'
  }

  /** The regex class `\w` on ASCII: letters, digits and the underscore. */
  predicate IsWordChar(c: char) {
    IsLowerLetter(c) || IsUpperLetter(c) || IsDigit(c) || c == '_'
  }

  predicate NoSpace(s: string) {
    forall i :: 0 <= i < |s| ==> !IsSpace(s[i])
  }

  predicate AllSpace(s: string) {
    forall i :: 0 <= i < |s| ==> IsSpace(s[i])
  }

  predicate AllDigits(s: string) {
    forall i :: 0 <= i < |s| ==> IsDigit(s[i])
  }

  // ---------------------------------------------------------------- strip

  /** str.lstrip(): drops the leading whitespace and nothing else. */
  function LStrip(s: string): (r: string)
    ensures |r| <= |s| && r == s[|s| - |r|..]
    ensures forall i :: 0 <= i < |s| - |r| ==> IsSpace(s[i])
    ensures r == "" || !IsSpace(r[0])
  {
    if |s| > 0 && IsSpace(s[0]) then LStrip(s[1..]) else s
  }

  /** str.rstrip(): drops the trailing whitespace and nothing else. */
  function RStrip(s: string): (r: string)
    ensures |r| <= |s| && r == s[..|r|]
    ensures forall i :: |r| <= i < |s| ==> IsSpace(s[i])
    ensures r == "" || !IsSpace(r[|r| - 1])
  {
    if |s| > 0 && IsSpace(s[|s| - 1]) then RStrip(s[..|s| - 1]) else s
  }

  /** str.strip() */
  function Strip(s: string): string {
    RStrip(LStrip(s))
  }

  lemma {:induction false} LStripSpaces(pre: string, x: string)
    requires AllSpace(pre) && (x == "" || !IsSpace(x[0]))
    ensures LStrip(pre + x) == x
  {
    if |pre| > 0 {
      assert (pre + x)[1..] == pre[1..] + x;
      LStripSpaces(pre[1..], x);
    } else {
      assert pre + x == x;
    }
  }

  lemma {:induction false} RStripSpaces(x: string, post: string)
    requires AllSpace(post) && (x == "" || !IsSpace(x[|x| - 1]))
    ensures RStrip(x + post) == x
  {
    if |post| > 0 {
      assert (x + post)[..|x + post| - 1] == x + post[..|post| - 1];
      RStripSpaces(x, post[..|post| - 1]);
    } else {
      assert x + post == x;
    }
  }

  /** Stripping text padded with whitespace on both sides gives the text back. */
  lemma StripPadded(pre: string, x: string, post: string)
    requires AllSpace(pre) && AllSpace(post)
    requires x != "" && !IsSpace(x[0]) && !IsSpace(x[|x| - 1])
    ensures Strip(pre + x + post) == x
  {
    assert pre + x + post == pre + (x + post);
    LStripSpaces(pre, x + post);
    RStripSpaces(x, post);
  }

  // ---------------------------------------------------------------- split / join

  /** str.join: the parts with `sep` between consecutive ones. */
  function Join(sep: string, parts: seq<string>): string {
    if |parts| == 0 then ""
    else if |parts| == 1 then parts[0]
    else parts[0] + sep + Join(sep, parts[1..])
  }

  /** str.split(sep) for a one-character separator. */
  function Split(s: string, sep: char): (parts: seq<string>)
    ensures |parts| >= 1
    ensures forall k :: 0 <= k < |parts| ==> sep !in parts[k]
  {
    if |s| == 0 then [""]
    else
      var rest := Split(s[1..], sep);
      if s[0] == sep then [""] + rest
      else [[s[0]] + rest[0]] + rest[1..]
  }

  /** Splitting and joining back with the same separator gives the string back. */
  lemma {:induction false} JoinSplit(s: string, sep: char)
    ensures Join([sep], Split(s, sep)) == s
  {
    if |s| > 0 {
      var rest := Split(s[1..], sep);
      JoinSplit(s[1..], sep);
      if s[0] == sep {
        assert Split(s, sep) == [""] + rest;
        if |rest| == 1 {
          assert Join([sep], [""] + rest) == "" + [sep] + rest[0];
        } else {
          assert ([""] + rest)[1..] == rest;
        }
        assert s == [s[0]] + s[1..];
      } else {
        var parts := [[s[0]] + rest[0]] + rest[1..];
        assert Split(s, sep) == parts;
        if |rest| == 1 {
          assert Join([sep], parts) == [s[0]] + rest[0];
        } else {
          assert parts[1..] == rest[1..];
          assert Join([sep], rest) == rest[0] + [sep] + Join([sep], rest[1..]);
        }
        assert s == [s[0]] + s[1..];
      }
    }
  }

  lemma {:induction false} SplitNoSeparator(a: string, sep: char)
    requires sep !in a
    ensures Split(a, sep) == [a]
  {
    if |a| > 0 {
      SplitNoSeparator(a[1..], sep);
      assert [a[0]] + a[1..] == a;
    }
  }

  lemma {:induction false} SplitAfterFirst(a: string, sep: char, b: string)
    requires sep !in a
    ensures Split(a + [sep] + b, sep) == [a] + Split(b, sep)
  {
    var s := a + [sep] + b;
    if |a| == 0 {
      assert s[1..] == b;
    } else {
      assert s[1..] == a[1..] + [sep] + b;
      SplitAfterFirst(a[1..], sep, b);
      assert [a[0]] + a[1..] == a;
    }
  }

  /** Joining parts that hold no separator and splitting again gives the parts back. */
  lemma {:induction false} SplitJoin(parts: seq<string>, sep: char)
    requires |parts| >= 1 && forall k :: 0 <= k < |parts| ==> sep !in parts[k]
    ensures Split(Join([sep], parts), sep) == parts
  {
    if |parts| == 1 {
      SplitNoSeparator(parts[0], sep);
    } else {
      SplitJoin(parts[1..], sep);
      SplitAfterFirst(parts[0], sep, Join([sep], parts[1..]));
      assert [parts[0]] + parts[1..] == parts;
    }
  }

  lemma JoinCons(sep: string, x: string, ys: seq<string>)
    ensures Join(sep, [x] + ys) == x + if |ys| == 0 then "" else sep + Join(sep, ys)
  {
    assert ([x] + ys)[1..] == ys;
  }

  lemma {:induction false} JoinAppend(sep: string, a: seq<string>, b: seq<string>)
    requires |a| > 0 && |b| > 0
    ensures Join(sep, a + b) == Join(sep, a) + sep + Join(sep, b)
  {
    assert (a + b)[0] == a[0];
    if |a| == 1 {
      assert (a + b)[1..] == b;
    } else {
      assert (a + b)[1..] == a[1..] + b;
      JoinAppend(sep, a[1..], b);
    }
  }

  lemma {:induction false} JoinAllSpace(lines: seq<string>)
    requires forall k :: 0 <= k < |lines| ==> AllSpace(lines[k])
    ensures AllSpace(Join("\n", lines))
  {
    if |lines| > 1 {
      JoinAllSpace(lines[1..]);
    }
  }

  lemma JoinAround(pre: seq<string>, body: seq<string>, post: seq<string>)
    requires |pre| > 0 && |body| > 0 && |post| > 0
    ensures Join("\n", pre + body + post) == Join("\n", pre) + "\n" + Join("\n", body) + "\n" + Join("\n", post)
  {
    assert pre + body + post == pre + (body + post);
    JoinAppend("\n", pre, body + post);
    JoinAppend("\n", body, post);
  }

  lemma JoinPadFirst(sep: string, w: string, x: string, ys: seq<string>)
    ensures Join(sep, [w + x] + ys) == w + Join(sep, [x] + ys)
  {
    JoinCons(sep, w + x, ys);
    JoinCons(sep, x, ys);
  }

  lemma JoinPadLast(sep: string, xs: seq<string>, x: string, w: string)
    requires |xs| > 0
    ensures Join(sep, xs + [x + w]) == Join(sep, xs + [x]) + w
  {
    JoinAppend(sep, xs, [x + w]);
    JoinAppend(sep, xs, [x]);
  }

  /** Padding the first and last of several lines pads their join. */
  lemma JoinPadEnds(sep: string, w0: string, x: string, mid: seq<string>, y: string, w1: string)
    ensures Join(sep, [w0 + x] + mid + [y + w1]) == w0 + Join(sep, [x] + mid + [y]) + w1
  {
    JoinPadLast(sep, [w0 + x] + mid, y, w1);
    assert [w0 + x] + mid + [y] == [w0 + x] + (mid + [y]);
    JoinPadFirst(sep, w0, x, mid + [y]);
    assert [x] + (mid + [y]) == [x] + mid + [y];
  }

  /**
   * A text whose first lines `pre` and last lines `post` are blank, and whose
   * other lines start with the whitespace `w0` before visible text and end with
   * the whitespace `w1` after it: strip() drops exactly the blank lines and
   * that whitespace.
   */
  lemma StripJoin(pre: seq<string>, w0: string, x: string, mid: seq<string>, y: string, w1: string, post: seq<string>)
    requires |pre| > 0 && |post| > 0
    requires forall k :: 0 <= k < |pre| ==> AllSpace(pre[k])
    requires forall k :: 0 <= k < |post| ==> AllSpace(post[k])
    requires AllSpace(w0) && AllSpace(w1)
    requires x != "" && !IsSpace(x[0]) && y != "" && !IsSpace(y[|y| - 1])
    ensures Strip(Join("\n", pre + ([w0 + x] + mid + [y + w1]) + post)) == Join("\n", [x] + mid + [y])
  {
    var above, below := Join("\n", pre), Join("\n", post);
    var core := Join("\n", [x] + mid + [y]);
    assert core != "" && !IsSpace(core[0]) && !IsSpace(core[|core| - 1]) by {
      JoinEnds(x, mid, y);
    }
    assert AllSpace(above) && AllSpace(below) by {
      JoinAllSpace(pre);
      JoinAllSpace(post);
    }
    assert Join("\n", pre + ([w0 + x] + mid + [y + w1]) + post) == above + "\n" + (w0 + core + w1) + "\n" + below by {
      JoinLayout(pre, w0, x, mid, y, w1, post);
    }
    StripAround(above, w0, core, w1, below);
  }

  lemma JoinLayout(pre: seq<string>, w0: string, x: string, mid: seq<string>, y: string, w1: string, post: seq<string>)
    requires |pre| > 0 && |post| > 0
    ensures Join("\n", pre + ([w0 + x] + mid + [y + w1]) + post)
      == Join("\n", pre) + "\n" + (w0 + Join("\n", [x] + mid + [y]) + w1) + "\n" + Join("\n", post)
  {
    JoinAround(pre, [w0 + x] + mid + [y + w1], post);
    JoinPadEnds("\n", w0, x, mid, y, w1);
  }

  lemma StripAround(above: string, w0: string, core: string, w1: string, below: string)
    requires AllSpace(above) && AllSpace(w0) && AllSpace(w1) && AllSpace(below)
    requires core != "" && !IsSpace(core[0]) && !IsSpace(core[|core| - 1])
    ensures Strip(above + "\n" + (w0 + core + w1) + "\n" + below) == core
  {
    var before := above + "\n" + w0;
    var after := w1 + "\n" + below;
    assert above + "\n" + (w0 + core + w1) + "\n" + below == before + core + after;
    assert AllSpace(before) && AllSpace(after);
    StripPadded(before, core, after);
  }

  /** The joined text starts with the first line and ends with the last. */
  lemma JoinEnds(x: string, mid: seq<string>, y: string)
    requires x != "" && y != ""
    ensures var j := Join("\n", [x] + mid + [y]);
      j != "" && j[0] == x[0] && j[|j| - 1] == y[|y| - 1]
  {
    JoinCons("\n", x, mid + [y]);
    assert [x] + (mid + [y]) == [x] + mid + [y];
    JoinAppend("\n", [x] + mid, [y]);
  }

  /** `s.split(sep)[-1]`: the text after the last separator (all of s when there is none). */
  function AfterLast(s: string, sep: char): string {
    var parts := Split(s, sep);
    parts[|parts| - 1]
  }

  /** What AfterLast means, as a property of a candidate r. */
  predicate LastSegment(s: string, sep: char, r: string) {
    && |r| <= |s| && r == s[|s| - |r|..] && sep !in r
    && (|r| < |s| ==> s[|s| - |r| - 1] == sep)
  }

  /** A first character that is not a separator joins a tail without separators. */
  lemma AfterLastWhole(s: string, sep: char)
    requires |s| > 0 && s[0] != sep && |Split(s[1..], sep)| == 1
    ensures AfterLast(s, sep) == s
  {
    JoinSplit(s[1..], sep);
  }

  /** Otherwise the last part is the last part of the tail. */
  lemma AfterLastOfTail(s: string, sep: char)
    requires |s| > 0 && (s[0] == sep || |Split(s[1..], sep)| > 1)
    ensures AfterLast(s, sep) == AfterLast(s[1..], sep)
  {
  }

  /** A tail that is its own last segment splits into one part. */
  lemma WholeTailSplitsOnce(t: string, sep: char)
    requires LastSegment(t, sep, AfterLast(t, sep)) && |AfterLast(t, sep)| == |t|
    ensures |Split(t, sep)| == 1
  {
    assert AfterLast(t, sep) == t;
    SplitNoSeparator(t, sep);
  }

  /** A last segment of the tail that is not the whole of s is one of s. */
  lemma LastSegmentOfTail(s: string, sep: char, r: string)
    requires |s| > 0 && LastSegment(s[1..], sep, r)
    requires |r| == |s| - 1 ==> s[0] == sep
    ensures LastSegment(s, sep, r)
  {
    assert s[|s| - |r|..] == s[1..][|s| - 1 - |r|..];
  }

  /** AfterLast is the longest suffix of s that holds no separator. */
  lemma {:induction false} AfterLastIsLastSegment(s: string, sep: char)
    ensures LastSegment(s, sep, AfterLast(s, sep))
  {
    if |s| > 0 {
      var tail := s[1..];
      AfterLastIsLastSegment(tail, sep);
      if s[0] != sep && |Split(tail, sep)| == 1 {
        AfterLastWhole(s, sep);
      } else {
        AfterLastOfTail(s, sep);
        if |AfterLast(tail, sep)| == |tail| && s[0] != sep {
          WholeTailSplitsOnce(tail, sep);
        }
        LastSegmentOfTail(s, sep, AfterLast(tail, sep));
      }
    }
  }

  /** The maximal run of non-whitespace characters at the start of s. */
  function Token(s: string): (w: string)
    ensures |w| <= |s| && w == s[..|w|] && NoSpace(w)
    ensures |w| < |s| ==> IsSpace(s[|w|])
  {
    if |s| == 0 || IsSpace(s[0]) then "" else [s[0]] + Token(s[1..])
  }

  /** str.split() with no argument: the maximal whitespace-free runs, in order. */
  function Words(s: string): (ws: seq<string>)
    ensures forall k :: 0 <= k < |ws| ==> ws[k] != "" && NoSpace(ws[k])
    decreases |s|
  {
    if |s| == 0 then []
    else if IsSpace(s[0]) then Words(s[1..])
    else
      var w := Token(s);
      [w] + Words(s[|w|..])
  }

  lemma {:induction false} TokenOfWordThenRest(w: string, rest: string)
    requires NoSpace(w)
    requires rest == "" || IsSpace(rest[0])
    ensures Token(w + rest) == w
  {
    if |w| > 0 {
      assert (w + rest)[1..] == w[1..] + rest;
      TokenOfWordThenRest(w[1..], rest);
    } else {
      assert w + rest == rest;
    }
  }

  /** Joining non-empty whitespace-free words with single spaces and splitting again gives the words back. */
  lemma {:induction false} WordsOfJoin(ws: seq<string>)
    requires forall k :: 0 <= k < |ws| ==> ws[k] != "" && NoSpace(ws[k])
    ensures Words(Join(" ", ws)) == ws
  {
    if |ws| == 1 {
      TokenOfWordThenRest(ws[0], "");
      assert ws[0] + "" == ws[0];
      assert ws[0][|ws[0]|..] == "";
    } else if |ws| > 1 {
      var tail := Join(" ", ws[1..]);
      var s := ws[0] + " " + tail;
      assert Join(" ", ws) == s;
      TokenOfWordThenRest(ws[0], " " + tail);
      assert ws[0] + (" " + tail) == s;
      assert s[|ws[0]|..] == " " + tail;
      assert (" " + tail)[1..] == tail;
      WordsOfJoin(ws[1..]);
      assert ws == [ws[0]] + ws[1..];
    }
  }

  /** Three words joined with single spaces split back into those three words. */
  lemma WordsOfThree(a: string, b: string, c: string)
    requires a != "" && NoSpace(a) && b != "" && NoSpace(b) && c != "" && NoSpace(c)
    ensures Join(" ", [a, b, c]) == a + " " + b + " " + c
    ensures Words(a + " " + b + " " + c) == [a, b, c]
  {
    assert [a, b, c][1..] == [b, c];
    assert [b, c][1..] == [c];
    assert Join(" ", [b, c]) == b + " " + c;
    assert Join(" ", [a, b, c]) == a + " " + (b + " " + c);
    WordsOfJoin([a, b, c]);
  }

  // ---------------------------------------------------------------- substring

  /** Python's `p in s` for strings. */
  function Contains(s: string, p: string): bool
    decreases |s|
  {
    p <= s || (|s| > 0 && Contains(s[1..], p))
  }

  /** p occurs in s starting at position i. */
  predicate OccursAt(s: string, p: string, i: int) {
    0 <= i <= |s| - |p| && s[i..i + |p|] == p
  }

  /** An occurrence after the first position is an occurrence in the tail, one position earlier. */
  lemma OccursInTail(s: string, p: string, i: int)
    requires |s| > 0 && 0 < i && OccursAt(s, p, i)
    ensures OccursAt(s[1..], p, i - 1)
  {
    assert s[1..][i - 1..i - 1 + |p|] == s[i..i + |p|];
  }

  /** An occurrence in the tail is an occurrence in s, one position later. */
  lemma OccursFromTail(s: string, p: string, i: int)
    requires |s| > 0 && OccursAt(s[1..], p, i)
    ensures OccursAt(s, p, i + 1)
  {
    assert s[i + 1..i + 1 + |p|] == s[1..][i..i + |p|];
  }

  /** `p in s` holds exactly when p occurs at some position of s. */
  lemma {:induction false} ContainsIffOccurs(s: string, p: string)
    ensures Contains(s, p) <==> exists i :: OccursAt(s, p, i)
  {
    if p <= s {
      assert OccursAt(s, p, 0);
    } else if |s| > 0 {
      ContainsIffOccurs(s[1..], p);
      if i :| OccursAt(s, p, i) {
        if i > 0 {
          OccursInTail(s, p, i);
        }
      }
      if Contains(s[1..], p) {
        var i :| OccursAt(s[1..], p, i);
        OccursFromTail(s, p, i);
      }
    }
  }

  /** A pattern whose first character never occurs in s does not occur in s. */
  lemma {:induction false} NotContainsFirstChar(s: string, p: string)
    requires |p| > 0 && p[0] !in s
    ensures !Contains(s, p)
  {
    if |s| > 0 {
      assert s[0] != p[0];
      NotContainsFirstChar(s[1..], p);
    }
  }

  /** A pattern written inside a text is found in it. */
  lemma {:induction false} ContainsInfix(a: string, p: string, b: string)
    ensures Contains(a + p + b, p)
  {
    if |a| == 0 {
      assert a + p + b == p + b;
    } else {
      assert (a + p + b)[1..] == a[1..] + p + b;
      ContainsInfix(a[1..], p, b);
    }
  }

  // ---------------------------------------------------------------- case

  function LowerChar(c: char): char {
    if IsUpperLetter(c) then (c as int + 32) as char else c
  }

  function UpperChar(c: char): char {
    if IsLowerLetter(c) then (c as int - 32) as char else c
  }

  /** str.lower() on ASCII letters. */
  function Lower(s: string): (r: string)
    ensures |r| == |s|
    ensures forall i :: 0 <= i < |s| ==> r[i] == LowerChar(s[i])
  {
    seq(|s|, i requires 0 <= i < |s| => LowerChar(s[i]))
  }

  /** str.upper() on ASCII letters. */
  function Upper(s: string): (r: string)
    ensures |r| == |s|
    ensures forall i :: 0 <= i < |s| ==> r[i] == UpperChar(s[i])
  {
    seq(|s|, i requires 0 <= i < |s| => UpperChar(s[i]))
  }

  // ---------------------------------------------------------------- numbers

  function DigitChar(d: nat): (c: char)
    requires d < 10
    ensures IsDigit(c)
  {
    ('0' as int + d) as char
  }

  /** str(n) for n >= 0: decimal digits, no leading zero. */
  function NatToString(n: nat): (r: string)
    ensures |r| >= 1 && AllDigits(r)
    decreases n
  {
    if n < 10 then [DigitChar(n)] else NatToString(n / 10) + [DigitChar(n % 10)]
  }

  /** str(n) */
  function IntToString(n: int): string {
    if n < 0 then "-" + NatToString(-n) else NatToString(n)
  }

  /** int(ds) for a string of decimal digits (leading zeros allowed). */
  function DigitsValue(ds: string): nat
    requires AllDigits(ds)
  {
    if |ds| == 0 then 0 else 10 * DigitsValue(ds[..|ds| - 1]) + (ds[|ds| - 1] as int - '0' as int)
  }

  /** int(str(n)) == n */
  lemma {:induction false} DigitsValueOfNatToString(n: nat)
    ensures DigitsValue(NatToString(n)) == n
  {
    if n >= 10 {
      var s := NatToString(n / 10) + [DigitChar(n % 10)];
      assert s[..|s| - 1] == NatToString(n / 10);
      DigitsValueOfNatToString(n / 10);
    }
  }

  /** How many characters str(n) has for the small numbers the generators draw. */
  lemma NatToStringLength(n: nat)
    ensures n < 10 ==> |NatToString(n)| == 1
    ensures 10 <= n < 100 ==> |NatToString(n)| == 2
    ensures 100 <= n < 1000 ==> |NatToString(n)| == 3
  {
    if n >= 10 {
      assert NatToString(n) == NatToString(n / 10) + [DigitChar(n % 10)];
      if n >= 100 {
        assert NatToString(n / 10) == NatToString(n / 100) + [DigitChar(n / 10 % 10)];
      }
    }
  }

  /** The maximal run of digits at the start of s. */
  function LeadingDigits(s: string): (ds: string)
    ensures |ds| <= |s| && ds == s[..|ds|] && AllDigits(ds)
    ensures |ds| < |s| ==> !IsDigit(s[|ds|])
  {
    if |s| == 0 || !IsDigit(s[0]) then "" else [s[0]] + LeadingDigits(s[1..])
  }
}
