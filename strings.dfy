/** The Foundation string operations the core uses (`hasPrefix`, `contains`,
    `components(separatedBy:)`, `joined(separator:)`, `prefix`, `suffix`,
    `lowercased`, `trimmingCharacters(in: .whitespaces)`), on `seq<char>`. */
module Strings {

  predicate HasPrefix(s: string, p: string) {
    |p| <= |s| && s[..|p|] == p
  }

  predicate HasSuffix(s: string, p: string) {
    |p| <= |s| && s[|s| - |p|..] == p
  }

  /** `s.contains(p)`: `p` occurs somewhere in `s`. */
  predicate Contains(s: string, p: string)
    decreases |s|
  {
    HasPrefix(s, p) || (|s| > 0 && Contains(s[1..], p))
  }

  /** Number of characters of `s` that belong to `chars`
      (`s.filter { chars.contains($0) }.count`). */
  function CountIn(s: string, chars: set<char>): nat
    decreases |s|
  {
    if s == [] then 0 else (if s[0] in chars then 1 else 0) + CountIn(s[1..], chars)
  }

  /** `s.components(separatedBy: seps)`: the maximal runs of non-separator
      characters, including empty runs; there is always one more part than
      there are separators. */
  function Split(s: string, seps: set<char>): (parts: seq<string>)
    ensures |parts| == CountIn(s, seps) + 1
    decreases |s|
  {
    if s == [] then [""]
    else
      var rest := Split(s[1..], seps);
      if s[0] in seps then [""] + rest
      else [[s[0]] + rest[0]] + rest[1..]
  }

  /** `parts.joined(separator: sep)`. */
  function Join(parts: seq<string>, sep: string): string
    decreases |parts|
  {
    if |parts| == 0 then ""
    else if |parts| == 1 then parts[0]
    else parts[0] + sep + Join(parts[1..], sep)
  }

  /** A join of at least two parts starts with the first part and a separator. */
  lemma JoinStarts(parts: seq<string>, sep: string)
    requires |parts| >= 2
    ensures HasPrefix(Join(parts, sep), parts[0] + sep)
  {
    var j := Join(parts, sep);
    assert j == (parts[0] + sep) + Join(parts[1..], sep);
    assert j[..|parts[0] + sep|] == parts[0] + sep;
  }

  /** A join of at least three parts ends with the last two parts, each after a separator. */
  lemma {:induction false} JoinEnds(parts: seq<string>, sep: string)
    requires |parts| >= 3
    ensures HasSuffix(Join(parts, sep), sep + parts[|parts| - 2] + sep + parts[|parts| - 1])
    decreases |parts|
  {
    var n := |parts|;
    var tail := sep + parts[n - 2] + sep + parts[n - 1];
    var rest := Join(parts[1..], sep);
    assert Join(parts, sep) == (parts[0] + sep) + rest;
    if n == 3 {
      assert rest == parts[1] + sep + Join(parts[2..], sep);
      assert Join(parts[2..], sep) == parts[2];
      assert sep + rest == tail;
      SuffixOfAppend(parts[0], sep + rest, tail);
      assert parts[0] + (sep + rest) == (parts[0] + sep) + rest;
    } else {
      JoinEnds(parts[1..], sep);
      assert parts[1..][|parts[1..]| - 2] == parts[n - 2] && parts[1..][|parts[1..]| - 1] == parts[n - 1];
      SuffixOfAppend(parts[0] + sep, rest, tail);
    }
  }

  /** Two empty parts at the end of a join add two separators. */
  lemma JoinTwoEmpty(xs: seq<string>, sep: string)
    requires |xs| >= 1
    ensures Join(xs + ["", ""], sep) == Join(xs, sep) + sep + sep
    decreases |xs|
  {
    var ys := xs + ["", ""];
    if |xs| == 1 {
      assert ys[1..] == ["", ""] && ys[1..][1..] == [""];
      assert Join(["", ""], sep) == "" + sep + "";
      assert Join(ys, sep) == xs[0] + sep + ("" + sep + "");
    } else {
      assert ys[1..] == xs[1..] + ["", ""];
      JoinTwoEmpty(xs[1..], sep);
      assert Join(ys, sep) == xs[0] + sep + (Join(xs[1..], sep) + sep + sep);
    }
  }

  /** Lines that open with `d` and close with `d` and an empty line join to a
      text that opens with `d` and a separator and closes with separator, `d`, separator. */
  lemma JoinFramed(lines: seq<string>, d: string, sep: string)
    requires |lines| >= 3 && lines[0] == d && lines[|lines| - 2] == d && lines[|lines| - 1] == ""
    ensures HasPrefix(Join(lines, sep), d + sep) && HasSuffix(Join(lines, sep), sep + d + sep)
  {
    JoinStarts(lines, sep);
    JoinEnds(lines, sep);
    assert sep + d + sep + "" == sep + d + sep;
  }

  /** Every character in `chars` replaced, one for one, by `sub`. */
  function Replace(s: string, chars: set<char>, sub: char): (r: string)
    ensures |r| == |s|
    ensures forall i :: 0 <= i < |s| ==> r[i] == (if s[i] in chars then sub else s[i])
    decreases |s|
  {
    if s == [] then []
    else [if s[0] in chars then sub else s[0]] + Replace(s[1..], chars, sub)
  }

  /** `String(s.prefix(n))`. */
  function Take(s: string, n: nat): (r: string)
    ensures |r| == (if n < |s| then n else |s|)
    ensures HasPrefix(s, r)
  {
    if n < |s| then s[..n] else s
  }

  /** `String(s.suffix(n))`. */
  function TakeLast(s: string, n: nat): (r: string)
    ensures |r| == (if n < |s| then n else |s|)
    ensures HasSuffix(s, r)
  {
    if n < |s| then s[|s| - n..] else s
  }

  function LowerChar(c: char): char {
    if 'A' <= c <= 'Z' then (c as int + 32) as char else c
  }

  /** `s.lowercased()`, restricted to the ASCII letters. */
  function Lower(s: string): (r: string)
    ensures |r| == |s|
    ensures forall i :: 0 <= i < |s| ==> r[i] == LowerChar(s[i])
    decreases |s|
  {
    if s == [] then [] else [LowerChar(s[0])] + Lower(s[1..])
  }

  /** Membership in `CharacterSet.whitespaces`: tab and the space separators. */
  predicate IsWhitespace(c: char) {
    c == ' ' || c == '\t' || c == '\U{00A0}' || c == '\U{1680}'
    || ('\U{2000}' <= c <= '\U{200A}') || c == '\U{202F}' || c == '\U{205F}' || c == '\U{3000}'
  }

  /** `s.trimmingCharacters(in: .whitespaces).isEmpty`. */
  predicate IsBlank(s: string) {
    forall i :: 0 <= i < |s| ==> IsWhitespace(s[i])
  }

  lemma {:induction false} CountConcat(a: string, b: string, chars: set<char>)
    ensures CountIn(a + b, chars) == CountIn(a, chars) + CountIn(b, chars)
    decreases |a|
  {
    if a == [] {
      assert a + b == b;
    } else {
      assert (a + b)[0] == a[0];
      assert (a + b)[1..] == a[1..] + b;
      CountConcat(a[1..], b, chars);
    }
  }

  /** No part of a split contains a separator. */
  lemma {:induction false} SplitPartsFree(s: string, seps: set<char>, k: nat)
    requires k < |Split(s, seps)|
    ensures CountIn(Split(s, seps)[k], seps) == 0
    decreases |s|
  {
    if s != [] {
      var rest := Split(s[1..], seps);
      if s[0] in seps {
        if k > 0 { SplitPartsFree(s[1..], seps, k - 1); }
      } else if k == 0 {
        SplitPartsFree(s[1..], seps, 0);
        var p := [s[0]] + rest[0];
        assert p[0] == s[0] && p[1..] == rest[0];
      } else {
        SplitPartsFree(s[1..], seps, k);
      }
    }
  }

  /** Splitting a concatenation: every part that ends with a separator in `a`
      is kept, and the unterminated tail of `a` is continued by `b`. */
  lemma {:induction false} SplitConcat(a: string, b: string, seps: set<char>)
    ensures var n := CountIn(a, seps);
            Split(a + b, seps) == Split(a, seps)[..n] + Split(Split(a, seps)[n] + b, seps)
    decreases |a|
  {
    if a == [] {
      assert a + b == b;
      assert Split(a, seps)[0] + b == b;
    } else {
      assert (a + b)[0] == a[0];
      assert (a + b)[1..] == a[1..] + b;
      SplitConcat(a[1..], b, seps);
      if a[0] in seps {
        SplitConcatSeparator(a, b, seps);
      } else if CountIn(a[1..], seps) > 0 {
        SplitConcatInner(a, b, seps);
      } else {
        SplitConcatTail(a, b, seps);
      }
    }
  }

  lemma SplitConcatSeparator(a: string, b: string, seps: set<char>)
    requires a != [] && a[0] in seps && (a + b)[1..] == a[1..] + b
    requires var n := CountIn(a[1..], seps);
             Split(a[1..] + b, seps) == Split(a[1..], seps)[..n] + Split(Split(a[1..], seps)[n] + b, seps)
    ensures var n := CountIn(a, seps);
            Split(a + b, seps) == Split(a, seps)[..n] + Split(Split(a, seps)[n] + b, seps)
  {
    var A' := Split(a[1..], seps);
    var n' := CountIn(a[1..], seps);
    SplitAtSeparator(a, seps);
    assert (a + b)[0] == a[0];
    SplitAtSeparator(a + b, seps);
    Cons("", A', Split(A'[n'] + b, seps), n');
  }

  /** A leading separator closes an empty first part. */
  lemma SplitAtSeparator(s: string, seps: set<char>)
    requires s != [] && s[0] in seps
    ensures Split(s, seps) == [""] + Split(s[1..], seps)
    ensures CountIn(s, seps) == CountIn(s[1..], seps) + 1
  {
  }

  /** A leading non-separator starts the first part. */
  lemma SplitAtOther(s: string, seps: set<char>)
    requires s != [] && s[0] !in seps
    ensures var rest := Split(s[1..], seps);
            Split(s, seps) == [[s[0]] + rest[0]] + rest[1..]
  {
  }

  /** Putting `h` in front of a list commutes with cutting it after its first `n` elements. */
  lemma Cons(h: string, xs: seq<string>, tail: seq<string>, n: nat)
    requires n < |xs|
    ensures [h] + (xs[..n] + tail) == ([h] + xs)[..n + 1] + tail
    ensures ([h] + xs)[n + 1] == xs[n]
  {
    assert ([h] + xs)[..n + 1] == [h] + xs[..n];
  }

  lemma SplitConcatInner(a: string, b: string, seps: set<char>)
    requires a != [] && a[0] !in seps && (a + b)[1..] == a[1..] + b
    requires CountIn(a[1..], seps) > 0
    requires var n := CountIn(a[1..], seps);
             Split(a[1..] + b, seps) == Split(a[1..], seps)[..n] + Split(Split(a[1..], seps)[n] + b, seps)
    ensures var n := CountIn(a, seps);
            Split(a + b, seps) == Split(a, seps)[..n] + Split(Split(a, seps)[n] + b, seps)
  {
    var A' := Split(a[1..], seps);
    var n' := CountIn(a[1..], seps);
    var R := Split(a[1..] + b, seps);
    SplitAtOther(a, seps);
    assert (a + b)[0] == a[0];
    SplitAtOther(a + b, seps);
    Splice([a[0]], A', R, Split(A'[n'] + b, seps), n');
  }

  /** Gluing `h` to the first of a list commutes with cutting the list after
      its first `n` elements. */
  lemma Splice(h: string, xs: seq<string>, ys: seq<string>, tail: seq<string>, n: nat)
    requires 0 < n < |xs| && ys == xs[..n] + tail
    ensures [h + ys[0]] + ys[1..] == ([h + xs[0]] + xs[1..])[..n] + tail
    ensures ([h + xs[0]] + xs[1..])[n] == xs[n]
  {
    var zs := [h + xs[0]] + xs[1..];
    assert ys[0] == xs[0];
    assert ys[1..] == xs[1..n] + tail;
    assert zs[..n] == [zs[0]] + xs[1..n];
  }

  lemma SplitConcatTail(a: string, b: string, seps: set<char>)
    requires a != [] && a[0] !in seps && CountIn(a[1..], seps) == 0
    ensures var n := CountIn(a, seps);
            Split(a + b, seps) == Split(a, seps)[..n] + Split(Split(a, seps)[n] + b, seps)
  {
    assert CountIn(a, seps) == 0;
    SplitSeparatorFree(a, seps);
  }

  /** A text without separators is its own single part. */
  lemma {:induction false} SplitSeparatorFree(s: string, seps: set<char>)
    requires CountIn(s, seps) == 0
    ensures Split(s, seps) == [s]
    decreases |s|
  {
    if s != [] {
      assert s[0] !in seps && CountIn(s[1..], seps) == 0;
      SplitSeparatorFree(s[1..], seps);
      assert [s[0]] + s[1..] == s;
    }
  }

  /** Joining the parts of a split with one character replaces every
      separator by that character. */
  lemma {:induction false} JoinSplit(s: string, seps: set<char>, c: char)
    ensures Join(Split(s, seps), [c]) == Replace(s, seps, c)
    decreases |s|
  {
    if s != [] {
      var rest := Split(s[1..], seps);
      JoinSplit(s[1..], seps, c);
      if s[0] in seps {
        SplitAtSeparator(s, seps);
        var parts := [""] + rest;
        assert parts[1..] == rest;
        assert Join(parts, [c]) == "" + [c] + Join(rest, [c]);
      } else {
        SplitAtOther(s, seps);
        var parts := [[s[0]] + rest[0]] + rest[1..];
        if |rest| == 1 {
          assert Join(parts, [c]) == [s[0]] + rest[0];
        } else {
          assert parts[1..] == rest[1..];
          assert Join(rest, [c]) == rest[0] + [c] + Join(rest[1..], [c]);
          assert Join(parts, [c]) == [s[0]] + (rest[0] + [c] + Join(rest[1..], [c]));
        }
      }
    }
  }

  /** Joining two non-empty lists puts exactly one separator between them. */
  lemma {:induction false} JoinConcat(xs: seq<string>, ys: seq<string>, sep: string)
    requires |xs| > 0 && |ys| > 0
    ensures Join(xs + ys, sep) == Join(xs, sep) + sep + Join(ys, sep)
    decreases |xs|
  {
    assert (xs + ys)[0] == xs[0];
    assert (xs + ys)[1..] == xs[1..] + ys;
    if |xs| > 1 {
      JoinConcat(xs[1..], ys, sep);
    } else {
      assert xs[1..] + ys == ys;
    }
  }

  /** Replacing every separator by a character `c` that does not occur in `s`
      and splitting on `c` gives the same parts as splitting on the separators. */
  lemma {:induction false} SplitReplace(s: string, seps: set<char>, c: char)
    requires forall i :: 0 <= i < |s| ==> s[i] != c
    ensures Split(Replace(s, seps, c), {c}) == Split(s, seps)
    decreases |s|
  {
    if s != [] {
      var r := Replace(s, seps, c);
      assert r[1..] == Replace(s[1..], seps, c);
      SplitReplace(s[1..], seps, c);
    }
  }

  lemma SuffixOfAppend(a: string, b: string, p: string)
    requires HasSuffix(b, p)
    ensures HasSuffix(a + b, p)
  {
    assert (a + b)[|a + b| - |p|..] == b[|b| - |p|..];
  }

  lemma PrefixOfPrefix(s: string, p: string, q: string)
    requires HasPrefix(s, p) && HasPrefix(p, q)
    ensures HasPrefix(s, q)
  {
    assert s[..|q|] == s[..|p|][..|q|];
  }

  /** The first part of a split is `p` exactly when the text is `p`, or `p`
      followed by a separator. */
  lemma {:induction false} FirstPart(t: string, p: string, seps: set<char>)
    requires forall i :: 0 <= i < |p| ==> p[i] !in seps
    ensures Split(t, seps)[0] == p <==> t == p || (|t| > |p| && t[..|p|] == p && t[|p|] in seps)
    decreases |p|
  {
    if p == [] {
      if t != [] && t[0] !in seps {
        assert |Split(t, seps)[0]| > 0;
      }
    } else if t != [] {
      FirstPart(t[1..], p[1..], seps);
      if t[0] !in seps {
        FirstPartStep(t, p, seps);
      }
    }
  }

  /** One step of `FirstPart`: a first character outside the separators
      starts the first part. */
  lemma FirstPartStep(t: string, p: string, seps: set<char>)
    requires t != [] && p != [] && t[0] !in seps
    requires var t', p' := t[1..], p[1..];
             Split(t', seps)[0] == p' <==> t' == p' || (|t'| > |p'| && t'[..|p'|] == p' && t'[|p'|] in seps)
    ensures Split(t, seps)[0] == p <==> t == p || (|t| > |p| && t[..|p|] == p && t[|p|] in seps)
  {
    var t', p' := t[1..], p[1..];
    var first' := Split(t', seps)[0];
    SplitAtOther(t, seps);
    ConsEq(t[0], first', p);
    assert t == [t[0]] + t';
    ConsEq(t[0], t', p);
    if |t| > |p| {
      assert t[..|p|] == [t[0]] + t'[..|p'|];
      ConsEq(t[0], t'[..|p'|], p);
      assert t[|p|] == t'[|p'|];
    }
  }

  /** A sequence equals `[x] + xs` exactly when it starts with `x` and goes on with `xs`. */
  lemma ConsEq<T>(x: T, xs: seq<T>, q: seq<T>)
    requires q != []
    ensures [x] + xs == q <==> x == q[0] && xs == q[1..]
  {
    if [x] + xs == q {
      assert ([x] + xs)[1..] == xs;
    }
    if x == q[0] && xs == q[1..] {
      assert q == [q[0]] + q[1..];
    }
  }

  lemma ContainsStep(s: string, p: string)
    requires s != []
    ensures Contains(s, p) <==> HasPrefix(s, p) || Contains(s[1..], p)
  {
  }

  lemma SuffixStep(s: string, x: string)
    requires s != []
    ensures HasSuffix(s, x) <==> s == x || HasSuffix(s[1..], x)
  {
    if |s| > |x| {
      assert s[|s| - |x|..] == s[1..][|s| - 1 - |x|..];
    }
  }

  lemma {:induction false} SplitNoSeparator(p: string, c: char)
    requires c !in p
    ensures Split(p, {c}) == [p]
    decreases |p|
  {
    if p != [] {
      SplitNoSeparator(p[1..], c);
      assert [p[0]] + p[1..] == p;
    }
  }

  lemma {:induction false} SplitAfterPart(p: string, rest: string, c: char)
    requires c !in p
    ensures Split(p + [c] + rest, {c}) == [p] + Split(rest, {c})
    decreases |p|
  {
    var s := p + [c] + rest;
    if p == [] {
      assert s[0] == c && s[1..] == rest;
    } else {
      assert s[0] == p[0] && s[1..] == p[1..] + [c] + rest;
      SplitAfterPart(p[1..], rest, c);
      assert [p[0]] + p[1..] == p;
    }
  }

  /** Splitting a join on a character none of the parts contains gives the parts back. */
  lemma {:induction false} SplitJoin(parts: seq<string>, c: char)
    requires |parts| > 0 && forall i :: 0 <= i < |parts| ==> c !in parts[i]
    ensures Split(Join(parts, [c]), {c}) == parts
    decreases |parts|
  {
    if |parts| == 1 {
      SplitNoSeparator(parts[0], c);
    } else {
      SplitAfterPart(parts[0], Join(parts[1..], [c]), c);
      SplitJoin(parts[1..], c);
      assert [parts[0]] + parts[1..] == parts;
    }
  }
}
