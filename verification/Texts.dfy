/** Python's notion of white space and lines, and the string operations built on it. */
module Texts {
  import opened Sequences

  /** `str.isspace` for one character; `\s` in a pattern and `str.strip` use the same set. */
  predicate IsSpace(c: char) {
    var n := c as int;
    || 0x09 <= n <= 0x0d || 0x1c <= n <= 0x20 || n == 0x85 || n == 0xa0 || n == 0x1680
    || 0x2000 <= n <= 0x200a || n == 0x2028 || n == 0x2029 || n == 0x202f || n == 0x205f || n == 0x3000
  }

  /** The characters at which `str.splitlines` ends a line. */
  predicate IsBoundary(c: char) {
    var n := c as int;
    0x0a <= n <= 0x0d || 0x1c <= n <= 0x1e || n == 0x85 || n == 0x2028 || n == 0x2029
  }

  predicate IsInk(c: char) { !IsSpace(c) }

  predicate Blank(t: string) {
    forall i :: 0 <= i < |t| ==> IsSpace(t[i])
  }

  function LStrip(t: string): string {
    if t == [] || !IsSpace(t[0]) then t else LStrip(t[1..])
  }

  function RStrip(t: string): string {
    if t == [] || !IsSpace(t[|t| - 1]) then t else RStrip(t[..|t| - 1])
  }

  lemma {:induction false} LStripSpec(t: string)
    ensures |LStrip(t)| <= |t| && LStrip(t) == t[|t| - |LStrip(t)|..]
    ensures Blank(t[..|t| - |LStrip(t)|])
    ensures LStrip(t) != [] ==> !IsSpace(LStrip(t)[0])
  {
    if t != [] && IsSpace(t[0]) {
      LStripSpec(t[1..]);
      var n := |t| - |LStrip(t)|;
      assert t[..n] == [t[0]] + t[1..][..n - 1];
    }
  }

  lemma {:induction false} RStripSpec(t: string)
    ensures |RStrip(t)| <= |t| && RStrip(t) == t[..|RStrip(t)|]
    ensures Blank(t[|RStrip(t)|..])
    ensures RStrip(t) != [] ==> !IsSpace(RStrip(t)[|RStrip(t)| - 1])
  {
    if t != [] && IsSpace(t[|t| - 1]) {
      RStripSpec(t[..|t| - 1]);
      var n := |RStrip(t)|;
      assert t[n..] == t[..|t| - 1][n..] + [t[|t| - 1]];
    }
  }

  /** `str.strip()`. */
  function Strip(t: string): string { RStrip(LStrip(t)) }

  predicate Stripped(t: string) {
    t != [] ==> !IsSpace(t[0]) && !IsSpace(t[|t| - 1])
  }

  /** What `strip` computes: the part of the text between its outermost ink. */
  lemma StripSpec(t: string)
    ensures Stripped(Strip(t))
    ensures exists i :: 0 <= i <= |t| - |Strip(t)| && Blank(t[..i]) && t[i..i + |Strip(t)|] == Strip(t)
                        && Blank(t[i + |Strip(t)|..])
  {
    LStripSpec(t);
    RStripSpec(LStrip(t));
    var l := LStrip(t);
    var r := Strip(t);
    var i := |t| - |l|;
    assert r != [] ==> r[0] == l[0];
    assert t[i..i + |r|] == r;
    assert t[i + |r|..] == l[|r|..];
  }

  lemma {:induction false} LStripAfterBlank(b: string, t: string)
    requires Blank(b)
    ensures LStrip(b + t) == LStrip(t)
  {
    if b == [] {
      assert b + t == t;
    } else {
      assert IsSpace(b[0]);
      assert (b + t)[1..] == b[1..] + t;
      LStripAfterBlank(b[1..], t);
    }
  }

  lemma {:induction false} RStripBeforeBlank(t: string, b: string)
    requires Blank(b)
    ensures RStrip(t + b) == RStrip(t)
  {
    if b == [] {
      assert t + b == t;
    } else {
      assert IsSpace(b[|b| - 1]);
      assert (t + b)[..|t + b| - 1] == t + b[..|b| - 1];
      RStripBeforeBlank(t, b[..|b| - 1]);
    }
  }

  lemma {:induction false} LStripConcat(t: string, u: string)
    requires !Blank(t)
    ensures LStrip(t + u) == LStrip(t) + u
  {
    if IsSpace(t[0]) {
      assert (t + u)[1..] == t[1..] + u;
      LStripConcat(t[1..], u);
    }
  }

  lemma {:induction false} RStripConcat(u: string, t: string)
    requires !Blank(t)
    ensures RStrip(u + t) == u + RStrip(t)
  {
    if IsSpace(t[|t| - 1]) {
      assert (u + t)[..|u + t| - 1] == u + t[..|t| - 1];
      RStripConcat(u, t[..|t| - 1]);
    }
  }

  lemma StripOfLStrip(t: string)
    ensures Strip(LStrip(t)) == Strip(t)
  {
    LStripSpec(t);
    var l := LStrip(t);
    var p := t[..|t| - |l|];
    assert t == p + l + [];
    StripAround(p, l, []);
  }

  lemma StripOfRStrip(t: string)
    ensures Strip(RStrip(t)) == Strip(t)
  {
    RStripSpec(t);
    var r := RStrip(t);
    var b := t[|r|..];
    assert t == r + b;
    StripBefore(r, b);
  }

  lemma StripBefore(t: string, b: string)
    requires Blank(b)
    ensures Strip(t + b) == Strip(t)
  {
    StripAround([], t, b);
    assert [] + t + b == t + b;
  }

  lemma StripTrimmed(t: string)
    ensures Strip(LStrip(t)) == Strip(t)
    ensures Strip(RStrip(t)) == Strip(t)
  {
    StripOfLStrip(t);
    StripOfRStrip(t);
  }

  lemma StripStripped(t: string)
    requires Stripped(t)
    ensures Strip(t) == t
  {
  }

  lemma StripBlank(t: string)
    requires Blank(t)
    ensures Strip(t) == []
  {
    LStripAfterBlank(t, []);
    assert t + [] == t;
  }

  /** White space around a text makes no difference to what is left after stripping. */
  lemma StripAround(a: string, t: string, b: string)
    requires Blank(a) && Blank(b)
    ensures Strip(a + t + b) == Strip(t)
  {
    assert a + t + b == a + (t + b);
    LStripAfterBlank(a, t + b);
    if Blank(t) {
      StripBlank(t);
      StripBlank(t + b);
    } else {
      LStripConcat(t, b);
      RStripBeforeBlank(LStrip(t), b);
    }
  }

  // ---- ink ----

  function Ink(t: string): string { Filter(t, IsInk) }

  lemma InkConcat(a: string, b: string)
    ensures Ink(a + b) == Ink(a) + Ink(b)
  {
    FilterConcat(a, b, IsInk);
  }

  lemma InkBlank(t: string)
    requires Blank(t)
    ensures Ink(t) == []
  {
    FilterNone(t, IsInk);
  }

  lemma InkCut(t: string, n: nat)
    requires n <= |t|
    ensures Ink(t) == Ink(t[..n]) + Ink(t[n..])
  {
    assert t == t[..n] + t[n..];
    InkConcat(t[..n], t[n..]);
  }

  lemma InkStrip(t: string)
    ensures Ink(Strip(t)) == Ink(t)
  {
    LStripSpec(t);
    RStripSpec(LStrip(t));
    var l := LStrip(t);
    InkCut(t, |t| - |l|);
    InkBlank(t[..|t| - |l|]);
    InkCut(l, |RStrip(l)|);
    InkBlank(l[|RStrip(l)|..]);
  }

  lemma NoInkIsBlank(t: string)
    ensures Ink(t) == [] <==> Blank(t)
    ensures Blank(t) <==> Strip(t) == []
  {
    if Blank(t) {
      InkBlank(t);
      StripBlank(t);
    } else {
      var i :| 0 <= i < |t| && !IsSpace(t[i]);
      FilterMembers(t, IsInk);
      assert t[i] in t && IsInk(t[i]);
      assert t[i] in Ink(t);
      InkStrip(t);
    }
  }

  // ---- lines ----

  predicate CleanLine(l: string) {
    forall i :: 0 <= i < |l| ==> !IsBoundary(l[i])
  }

  function LineLength(t: string): (n: nat)
    ensures n <= |t| && CleanLine(t[..n]) && (n < |t| ==> IsBoundary(t[n]))
  {
    if t == [] || IsBoundary(t[0]) then 0 else 1 + LineLength(t[1..])
  }

  /** `\r\n` ends one line, not two. */
  function BoundaryWidth(t: string, n: nat): (w: nat)
    requires n < |t| && IsBoundary(t[n])
    ensures 1 <= w && n + w <= |t|
    ensures Blank(t[n..n + w])
  {
    if t[n] == '\r' && n + 1 < |t| && t[n + 1] == '\n' then 2 else 1
  }

  /** `str.splitlines()`. */
  function SplitLines(t: string): seq<string>
    decreases |t|
  {
    if t == [] then []
    else
      var n := LineLength(t);
      if n == |t| then [t] else [t[..n]] + SplitLines(t[n + BoundaryWidth(t, n)..])
  }

  ghost predicate CleanLines(ls: seq<string>) {
    forall i :: 0 <= i < |ls| ==> CleanLine(ls[i])
  }

  lemma {:induction false} SplitIsClean(t: string)
    ensures CleanLines(SplitLines(t))
    decreases |t|
  {
    if t != [] {
      var n := LineLength(t);
      if n < |t| {
        SplitIsClean(t[n + BoundaryWidth(t, n)..]);
      }
    }
  }

  /** `"\n".join(lines)`. */
  function Join(ls: seq<string>): string {
    if ls == [] then [] else if |ls| == 1 then ls[0] else ls[0] + ['\n'] + Join(ls[1..])
  }

  function InkOfLines(ls: seq<string>): string {
    if ls == [] then [] else Ink(ls[0]) + InkOfLines(ls[1..])
  }

  lemma InkOfLinesCons(l: string, ls: seq<string>)
    ensures InkOfLines([l] + ls) == Ink(l) + InkOfLines(ls)
  {
    assert ([l] + ls)[1..] == ls;
  }

  lemma {:induction false} InkOfSplit(t: string)
    ensures InkOfLines(SplitLines(t)) == Ink(t)
    decreases |t|
  {
    if t != [] {
      var n := LineLength(t);
      if n == |t| {
        InkOfLinesCons(t, []);
        assert [t] + [] == [t];
      } else {
        var w := BoundaryWidth(t, n);
        var rest := t[n..];
        InkCut(t, n);
        InkCut(rest, w);
        assert rest[..w] == t[n..n + w] && rest[w..] == t[n + w..];
        InkBlank(rest[..w]);
        InkOfSplit(t[n + w..]);
        InkOfLinesCons(t[..n], SplitLines(t[n + w..]));
      }
    }
  }

  lemma {:induction false} InkOfJoin(ls: seq<string>)
    ensures Ink(Join(ls)) == InkOfLines(ls)
  {
    if ls == [] {
    } else if |ls| == 1 {
      assert InkOfLines(ls) == Ink(ls[0]) + InkOfLines(ls[1..]);
    } else {
      InkConcat(ls[0] + ['\n'], Join(ls[1..]));
      InkConcat(ls[0], ['\n']);
      assert Ink(['\n']) == [];
      InkOfJoin(ls[1..]);
    }
  }

  lemma {:induction false} InkOfLinesConcat(a: seq<string>, b: seq<string>)
    ensures InkOfLines(a + b) == InkOfLines(a) + InkOfLines(b)
  {
    if a == [] {
      assert a + b == b;
    } else {
      assert (a + b)[1..] == a[1..] + b;
      InkOfLinesConcat(a[1..], b);
    }
  }

  lemma {:induction false} JoinConcat(a: seq<string>, b: seq<string>)
    requires a != [] && b != []
    ensures Join(a + b) == Join(a) + ['\n'] + Join(b)
  {
    if |a| == 1 {
      assert (a + b)[1..] == b;
    } else {
      assert (a + b)[1..] == a[1..] + b;
      JoinConcat(a[1..], b);
    }
  }

  lemma LineLengthOf(l: string, rest: string)
    requires CleanLine(l) && rest != [] && IsBoundary(rest[0])
    ensures LineLength(l + rest) == |l|
  {
    if l == [] {
      assert l + rest == rest;
    } else {
      assert (l + rest)[1..] == l[1..] + rest;
      LineLengthOf(l[1..], rest);
    }
  }

  lemma SplitFirst(l: string, rest: string)
    requires CleanLine(l)
    ensures SplitLines(l + ['\n'] + rest) == [l] + SplitLines(rest)
  {
    var t := l + ['\n'] + rest;
    assert t == l + (['\n'] + rest);
    LineLengthOf(l, ['\n'] + rest);
    assert t[|l| + 1..] == rest;
    assert t[..|l|] == l;
  }

  lemma SplitOneLine(l: string)
    requires CleanLine(l) && l != []
    ensures SplitLines(l) == [l]
  {
    assert LineLength(l) == |l|;
  }

  lemma HeadTail<T>(s: seq<T>, more: seq<T>)
    requires s != []
    ensures [s[0]] + (s[1..] + more) == s + more
  {
  }

  lemma Regroup(a: string, nl: string, b: string, c: string)
    ensures (a + nl + b) + nl + c == a + nl + (b + nl + c)
  {
  }

  lemma {:induction false} SplitJoinThen(ls: seq<string>, rest: string)
    requires ls != [] && CleanLines(ls)
    ensures SplitLines(Join(ls) + ['\n'] + rest) == ls + SplitLines(rest)
  {
    if |ls| == 1 {
      SplitFirst(ls[0], rest);
    } else {
      SplitJoinThen(ls[1..], rest);
      Regroup(ls[0], ['\n'], Join(ls[1..]), rest);
      SplitFirst(ls[0], Join(ls[1..]) + ['\n'] + rest);
      HeadTail(ls, SplitLines(rest));
    }
  }

  /** Splitting undoes joining when no line holds a line boundary and the last line is not empty. */
  lemma SplitJoin(ls: seq<string>)
    requires ls != [] && CleanLines(ls)
    requires ls[|ls| - 1] != []
    ensures SplitLines(Join(ls)) == ls
  {
    var n := |ls| - 1;
    assert ls == ls[..n] + [ls[n]];
    SplitOneLine(ls[n]);
    if n > 0 { SplitJoinLast(ls[..n], ls[n]); }
  }

  lemma SplitJoinLast(ls: seq<string>, last: string)
    requires ls != [] && CleanLines(ls) && SplitLines(last) == [last]
    ensures SplitLines(Join(ls + [last])) == ls + [last]
  {
    JoinConcat(ls, [last]);
    SplitJoinThen(ls, last);
  }

  /** Every line boundary ends a line, and a carriage return with the newline after it ends one. */
  lemma LineEnds(l: string, c: char, rest: string)
    requires CleanLine(l) && IsBoundary(c)
    ensures !(c == '\r' && rest != [] && rest[0] == '\n') ==> SplitLines(l + [c] + rest) == [l] + SplitLines(rest)
    ensures SplitLines(l + ['\r', '\n'] + rest) == [l] + SplitLines(rest)
  {
    var t, u := l + [c] + rest, l + ['\r', '\n'] + rest;
    LineLengthOf(l, [c] + rest);
    LineLengthOf(l, ['\r', '\n'] + rest);
    assert t == l + ([c] + rest) && u == l + (['\r', '\n'] + rest);
    assert t[..|l|] == l && t[|l| + 1..] == rest && u[..|l|] == l && u[|l| + 2..] == rest;
  }
}
