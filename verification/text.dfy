/** Python string primitives the scraper relies on, over `seq<char>`:
    `isspace`, `lower`, `startswith`/`endswith`, `in`, `strip`/`rstrip`,
    `split(sep)`, `split()` and `sep.join(...)`. */
module Text {
  import opened Seqs

  /** Python's `str.isspace()` for one character (the full Unicode set
      that `split()` and `strip()` treat as whitespace). */
  predicate IsSpace(c: char) {
    || ('\t' <= c <= '\r')
    || ('\U{1C}' <= c <= ' ')
    || c == '\U{85}' || c == '\U{A0}' || c == '\U{1680}'
    || ('\U{2000}' <= c <= '\U{200A}')
    || c == '\U{2028}' || c == '\U{2029}' || c == '\U{202F}'
    || c == '\U{205F}' || c == '\U{3000}'
  }

  predicate NoSpace(s: string) {
    forall i :: 0 <= i < |s| ==> !IsSpace(s[i])
  }

  predicate AllSpace(s: string) {
    forall i :: 0 <= i < |s| ==> IsSpace(s[i])
  }

  lemma AllSpaceCons(c: char, t: string)
    requires IsSpace(c) && AllSpace(t)
    ensures AllSpace([c] + t)
  {
    forall i | 0 <= i < |t| + 1 ensures IsSpace(([c] + t)[i]) {
      if i > 0 {
        assert ([c] + t)[i] == t[i - 1];
      }
    }
  }

  lemma AllSpaceSnoc(t: string, c: char)
    requires IsSpace(c) && AllSpace(t)
    ensures AllSpace(t + [c])
  {
    forall i | 0 <= i < |t| + 1 ensures IsSpace((t + [c])[i]) {
      if i < |t| {
        assert (t + [c])[i] == t[i];
      }
    }
  }

  /** No whitespace at either end: what `strip()` returns. */
  predicate IsTrimmed(s: string) {
    s == [] || (!IsSpace(s[0]) && !IsSpace(s[|s| - 1]))
  }

  /** `lower()` restricted to ASCII letters. */
  function LowerChar(c: char): char {
    if 'A' <= c <= 'Z' then (c as int + 32) as char else c
  }

  function Lower(s: string): (r: string)
    ensures |r| == |s|
    ensures forall i :: 0 <= i < |s| ==> r[i] == LowerChar(s[i])
  {
    seq(|s|, i requires 0 <= i < |s| => LowerChar(s[i]))
  }

  predicate StartsWith(s: string, prefix: string) {
    IsPrefix(prefix, s)
  }

  predicate EndsWith(s: string, suffix: string) {
    |suffix| <= |s| && s[|s| - |suffix|..] == suffix
  }

  /** Python's `sub in s`. */
  predicate Contains(s: string, sub: string) {
    exists i | 0 <= i <= |s| - |sub| :: OccursAt(s, sub, i)
  }

  predicate OccursAt(s: string, sub: string, i: nat) {
    i + |sub| <= |s| && s[i..i + |sub|] == sub
  }

  /** `lstrip()`: drops the leading whitespace and nothing else. */
  function LStrip(s: string): (r: string)
    ensures |r| <= |s| && r == s[|s| - |r|..]
    ensures AllSpace(s[..|s| - |r|])
    ensures r == [] || !IsSpace(r[0])
    decreases |s|
  {
    if |s| > 0 && IsSpace(s[0]) then
      var r := LStrip(s[1..]);
      AllSpaceCons(s[0], s[1..][..|s| - 1 - |r|]);
      assert s[..|s| - |r|] == [s[0]] + s[1..][..|s| - 1 - |r|];
      r
    else s
  }

  /** `rstrip()`: drops the trailing whitespace and nothing else. */
  function RStrip(s: string): (r: string)
    ensures |r| <= |s| && r == s[..|r|]
    ensures AllSpace(s[|r|..])
    ensures r == [] || !IsSpace(r[|r| - 1])
    decreases |s|
  {
    if |s| > 0 && IsSpace(s[|s| - 1]) then
      var r := RStrip(s[..|s| - 1]);
      AllSpaceSnoc(s[..|s| - 1][|r|..], s[|s| - 1]);
      assert s[|r|..] == s[..|s| - 1][|r|..] + [s[|s| - 1]];
      r
    else s
  }

  /** `strip()`: a contiguous piece of `s` with whitespace on neither end,
      obtained by removing only whitespace. */
  function Strip(s: string): (r: string)
    ensures IsTrimmed(r)
    ensures exists i, j :: 0 <= i <= j <= |s| && r == s[i..j] && AllSpace(s[..i]) && AllSpace(s[j..])
  {
    var l := LStrip(s);
    var r := RStrip(l);
    PrefixOfSuffix(s, l, r);
    r
  }

  /** `rstrip(c)` for a single character `c`. */
  function RStripChar(s: string, c: char): (r: string)
    ensures |r| <= |s| && r == s[..|r|]
    ensures forall i :: |r| <= i < |s| ==> s[i] == c
    ensures r == [] || r[|r| - 1] != c
    decreases |s|
  {
    if |s| > 0 && s[|s| - 1] == c then RStripChar(s[..|s| - 1], c) else s
  }

  /** `lstrip(c)` for a single character `c`. */
  function LStripChar(s: string, c: char): (r: string)
    ensures |r| <= |s| && r == s[|s| - |r|..]
    ensures forall i :: 0 <= i < |s| - |r| ==> s[i] == c
    ensures r == [] || r[0] != c
    decreases |s|
  {
    if |s| > 0 && s[0] == c then LStripChar(s[1..], c) else s
  }

  /** `strip(c)` for a single character `c`. */
  function StripChar(s: string, c: char): (r: string)
    ensures r == [] || (r[0] != c && r[|r| - 1] != c)
    ensures exists i, j :: 0 <= i <= j <= |s| && r == s[i..j] && AllChar(s[..i], c) && AllChar(s[j..], c)
  {
    var l := LStripChar(s, c);
    var r := RStripChar(l, c);
    PrefixOfSuffix(s, l, r);
    r
  }

  /** Every character of `s` is `c`. */
  predicate AllChar(s: string, c: char) {
    forall i :: 0 <= i < |s| ==> s[i] == c
  }

  /** `s.split(sep)` for a one-character separator: always at least one
      piece, and no piece contains the separator. */
  function Split(s: string, sep: char): (r: seq<string>)
    ensures |r| >= 1
    ensures forall i :: 0 <= i < |r| ==> sep !in r[i]
    decreases |s|
  {
    if |s| == 0 then [""]
    else
      var rest := Split(s[1..], sep);
      if s[0] == sep then [""] + rest else [[s[0]] + rest[0]] + rest[1..]
  }

  /** `sep.join(parts)`. */
  function Join(sep: string, parts: seq<string>): string {
    if |parts| == 0 then ""
    else if |parts| == 1 then parts[0]
    else parts[0] + sep + Join(sep, parts[1..])
  }

  /** Joining a list is joining its first `k` parts, the separator, and
      joining the rest. */
  lemma {:induction false} JoinAt(sep: string, parts: seq<string>, k: nat)
    requires 0 < k < |parts|
    ensures Join(sep, parts) == Join(sep, parts[..k]) + sep + Join(sep, parts[k..])
    decreases k
  {
    if k == 1 {
      assert parts[..1] == [parts[0]];
    } else {
      var rest := parts[1..];
      JoinAt(sep, rest, k - 1);
      assert rest[..k - 1] == parts[..k][1..];
      assert rest[k - 1..] == parts[k..];
      assert Join(sep, parts[..k]) == parts[0] + sep + Join(sep, rest[..k - 1]);
    }
  }

  /** Part `k` of a join sits between the join of the parts before it and
      the join of the parts after it. */
  lemma JoinAround(sep: string, parts: seq<string>, k: nat)
    requires 0 < k && k + 1 < |parts|
    ensures Join(sep, parts) == Join(sep, parts[..k]) + sep + parts[k] + sep + Join(sep, parts[k + 1..])
  {
    var rest := parts[k..];
    JoinAt(sep, parts, k);
    JoinAt(sep, rest, 1);
    assert rest[..1] == [parts[k]];
    assert rest[1..] == parts[k + 1..];
  }

  /** Joining the pieces of a split with the separator gives back the text. */
  lemma {:induction false} JoinSplit(s: string, sep: char)
    ensures Join([sep], Split(s, sep)) == s
    decreases |s|
  {
    if |s| > 0 {
      var rest := Split(s[1..], sep);
      JoinSplit(s[1..], sep);
      if s[0] == sep {
        assert Split(s, sep) == [""] + rest;
        assert Join([sep], [""] + rest) == "" + [sep] + Join([sep], rest);
        assert s == [s[0]] + s[1..];
      } else {
        if |rest| == 1 {
          assert Split(s, sep) == [[s[0]] + rest[0]];
        } else {
          assert Join([sep], rest) == rest[0] + [sep] + Join([sep], rest[1..]);
          assert ([[s[0]] + rest[0]] + rest[1..])[1..] == rest[1..];
        }
        assert s == [s[0]] + s[1..];
      }
    }
  }

  lemma {:induction false} SplitNoSepPrefix(x: string, t: string, sep: char)
    requires sep !in x
    ensures Split(x + t, sep) == [x + Split(t, sep)[0]] + Split(t, sep)[1..]
    decreases |x|
  {
    if |x| > 0 {
      SplitNoSepPrefix(x[1..], t, sep);
      assert (x + t)[1..] == x[1..] + t;
      assert (x + t)[0] == x[0];
      assert x[0] != sep;
      assert [x[0]] + (x[1..] + Split(t, sep)[0]) == x + Split(t, sep)[0];
    } else {
      assert x + t == t;
      var r := Split(t, sep);
      assert r == [r[0]] + r[1..];
      assert x + r[0] == r[0];
    }
  }

  /** Splitting a join of separator-free pieces gives back the pieces. */
  lemma {:induction false} SplitJoin(parts: seq<string>, sep: char)
    requires |parts| >= 1
    requires forall i :: 0 <= i < |parts| ==> sep !in parts[i]
    ensures Split(Join([sep], parts), sep) == parts
    decreases |parts|
  {
    if |parts| == 1 {
      SplitNoSepPrefix(parts[0], "", sep);
      assert parts[0] + "" == parts[0];
    } else {
      var j := Join([sep], parts[1..]);
      SplitJoin(parts[1..], sep);
      assert Join([sep], parts) == parts[0] + ([sep] + j);
      SplitNoSepPrefix(parts[0], [sep] + j, sep);
      assert ([sep] + j)[1..] == j;
      assert ([sep] + j)[0] == sep;
      assert Split([sep] + j, sep) == [""] + parts[1..];
      assert parts[0] + Split([sep] + j, sep)[0] == parts[0];
      assert Split([sep] + j, sep)[1..] == parts[1..];
      assert parts == [parts[0]] + parts[1..];
    }
  }

  /** Python's `s.split()` with no argument: the maximal runs of
      non-whitespace characters, in order. */
  function Words(s: string): (r: seq<string>)
    ensures forall i :: 0 <= i < |r| ==> |r[i]| > 0 && NoSpace(r[i])
    ensures |s| > 0 && !IsSpace(s[0]) ==> |r| > 0 && r[0][0] == s[0]
    decreases |s|
  {
    if |s| == 0 then []
    else
      var rest := Words(s[1..]);
      if IsSpace(s[0]) then rest
      else if |s| > 1 && !IsSpace(s[1]) then [[s[0]] + rest[0]] + rest[1..]
      else [[s[0]]] + rest
  }

  /** `len(s.split())`. */
  function WordCount(s: string): nat {
    |Words(s)|
  }

  /** Whitespace separates words: the words of `a + [c] + b` with `c` a
      space are the words of `a` followed by the words of `b`. */
  lemma {:induction false} WordsAppend(a: string, c: char, b: string)
    requires IsSpace(c)
    ensures Words(a + [c] + b) == Words(a) + Words(b)
    decreases |a|
  {
    if |a| == 0 {
      assert a + [c] + b == [c] + b;
      WordsCons(c, b);
    } else {
      var x, t := a[0], a[1..];
      WordsAppend(t, c, b);
      WordsAppendStep(x, t, c, b);
      SplitFirst(a, c, b);
    }
  }

  lemma WordsAppendStep(x: char, t: string, c: char, b: string)
    requires IsSpace(c)
    requires Words(t + [c] + b) == Words(t) + Words(b)
    ensures Words([x] + (t + [c] + b)) == Words([x] + t) + Words(b)
  {
    var u := t + [c] + b;
    var wt, wb := Words(t), Words(b);
    WordsCons(x, u);
    WordsCons(x, t);
    if !IsSpace(x) {
      if |t| > 0 && !IsSpace(t[0]) {
        assert u[0] == t[0];
        MergeHead(x, Words(u), wt, wb);
      } else {
        assert |u| > 0 && IsSpace(u[0]);
        ConsAssoc([x], wt, wb);
      }
    }
  }

  lemma SplitFirst<T>(a: seq<T>, c: T, b: seq<T>)
    requires |a| > 0
    ensures a == [a[0]] + a[1..]
    ensures a + [c] + b == [a[0]] + (a[1..] + [c] + b)
  {
  }

  lemma MergeHead(x: char, wu: seq<string>, wt: seq<string>, wb: seq<string>)
    requires |wt| > 0 && wu == wt + wb
    ensures [[x] + wu[0]] + wu[1..] == ([[x] + wt[0]] + wt[1..]) + wb
  {
    assert wu[1..] == wt[1..] + wb;
  }

  /** One step of `Words`: a leading character either is dropped, starts
      the first word of the rest, or is a word of its own. */
  lemma WordsCons(x: char, t: string)
    ensures Words([x] + t) ==
      if IsSpace(x) then Words(t)
      else if |t| > 0 && !IsSpace(t[0]) then [[x] + Words(t)[0]] + Words(t)[1..]
      else [[x]] + Words(t)
  {
    assert ([x] + t)[1..] == t;
  }

  /** A single run of non-whitespace is one word. */
  lemma {:induction false} SingleWord(w: string)
    requires |w| > 0 && NoSpace(w)
    ensures Words(w) == [w]
    decreases |w|
  {
    if |w| > 1 {
      SingleWord(w[1..]);
      assert [w[0]] + w[1..] == w;
    } else {
      assert w == [w[0]];
    }
  }

  /** Joining words with single spaces and splitting again is lossless. */
  lemma {:induction false} WordsOfJoin(ws: seq<string>)
    requires forall i :: 0 <= i < |ws| ==> |ws[i]| > 0 && NoSpace(ws[i])
    ensures Words(Join(" ", ws)) == ws
    decreases |ws|
  {
    if |ws| == 1 {
      SingleWord(ws[0]);
    } else if |ws| > 1 {
      WordsOfJoin(ws[1..]);
      SingleWord(ws[0]);
      assert IsSpace(' ');
      assert Join(" ", ws) == ws[0] + [' '] + Join(" ", ws[1..]);
      WordsAppend(ws[0], ' ', Join(" ", ws[1..]));
      assert ws == [ws[0]] + ws[1..];
    }
  }
}
