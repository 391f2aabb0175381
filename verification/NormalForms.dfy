/** The normaliser said by rules: every text is rewritten to one text that no rule applies to, whatever the
    order in which the rules are used, and that text is what the chain of operations computes. */
module NormalForms {
  import opened Sequences
  import opened Texts
  import opened Normaliser

  datatype Rule = CrLf | LoneCr | Control | Tab | TwoSpaces | ThreeNewlines | OuterSpace

  predicate ControlCode(c: char) { (c < ' ' && c !in "\t\n\r") || c == '\U{7f}' }

  predicate StartsAt(t: string, i: nat, s: string) { i + |s| <= |t| && t[i..i + |s|] == s }

  /** `u` is `t` with the `n` characters from `i` on replaced by `s`. */
  predicate Replaces(t: string, i: nat, n: nat, s: string, u: string) {
    i + n <= |t| && u == t[..i] + s + t[i + n..]
  }

  /** A carriage return ends a line, alone or with the newline after it; once there is none, control characters
      go, a tab is a space, two spaces are one, three newlines are two; and in the end the text is stripped. */
  predicate Applies(rule: Rule, t: string, i: nat, u: string) {
    match rule
    case CrLf => (i == 0 || !StartsAt(t, i - 1, "\r")) && StartsAt(t, i, "\r\n") && Replaces(t, i, 2, "\n", u)
    case LoneCr =>
      && (i == 0 || !StartsAt(t, i - 1, "\r")) && StartsAt(t, i, "\r") && !StartsAt(t, i, "\r\n")
      && Replaces(t, i, 1, "\n", u)
    case Control => '\r' !in t && i < |t| && ControlCode(t[i]) && Replaces(t, i, 1, "", u)
    case Tab => '\r' !in t && StartsAt(t, i, "\t") && Replaces(t, i, 1, " ", u)
    case TwoSpaces => '\r' !in t && StartsAt(t, i, "  ") && Replaces(t, i, 2, " ", u)
    case ThreeNewlines => '\r' !in t && StartsAt(t, i, "\n\n\n") && Replaces(t, i, 3, "\n\n", u)
    case OuterSpace => Inside(t) && i < |t| && (i == 0 || i == |t| - 1) && IsSpace(t[i]) && Replaces(t, i, 1, "", u)
  }

  /** Nothing is left to do but to strip. */
  predicate Inside(t: string) {
    Lacks(t, '\r') && Lacks(t, '\t') && NoControl(t) && NoDoubleSpace(t) && NoTripleNewline(t)
  }

  ghost predicate Rewrites(t: string, u: string) {
    exists rule, i: nat :: Applies(rule, t, i, u)
  }

  ghost predicate Irreducible(t: string) {
    forall u :: !Rewrites(t, u)
  }

  ghost predicate IsPath(path: seq<string>) {
    path != [] && forall k :: 0 < k < |path| ==> Rewrites(path[k - 1], path[k])
  }

  ghost predicate RewritesTo(t: string, u: string) {
    exists path :: IsPath(path) && path[0] == t && path[|path| - 1] == u
  }

  // ---- line breaks ----

  function Unified(t: string): string { CrToLf(JoinCrLf(t)) }

  lemma {:induction false} JoinConcat(a: string, b: string)
    requires !(a != [] && a[|a| - 1] == '\r' && b != [] && b[0] == '\n')
    ensures JoinCrLf(a + b) == JoinCrLf(a) + JoinCrLf(b)
    decreases |a|
  {
    if a == [] {
      assert a + b == b;
    } else if a[0] == '\r' && 1 < |a| && a[1] == '\n' {
      assert (a + b)[2..] == a[2..] + b;
      JoinConcat(a[2..], b);
    } else {
      assert (a + b)[1..] == a[1..] + b;
      JoinConcat(a[1..], b);
    }
  }

  lemma {:induction false} CrConcat(a: string, b: string)
    ensures CrToLf(a + b) == CrToLf(a) + CrToLf(b)
  {
    if a == [] {
      assert a + b == b;
    } else {
      assert (a + b)[1..] == a[1..] + b;
      CrConcat(a[1..], b);
    }
  }

  lemma UnifiedConcat(a: string, b: string)
    requires !(a != [] && a[|a| - 1] == '\r' && b != [] && b[0] == '\n')
    ensures Unified(a + b) == Unified(a) + Unified(b)
  {
    JoinConcat(a, b);
    CrConcat(JoinCrLf(a), JoinCrLf(b));
  }

  lemma OneBreak(s: string)
    requires s in {"\n", "\r", "\r\n"}
    ensures Unified(s) == "\n"
  {
    assert "\n"[1..] == [] && "\r"[1..] == [] && "\r\n"[2..] == [];
    assert JoinCrLf("\r\n") == ['\n'] + JoinCrLf([]);
    assert JoinCrLf("\n") == ['\n'] + JoinCrLf([]);
    assert JoinCrLf("\r") == ['\r'] + JoinCrLf([]);
    assert CrToLf("\n") == ['\n'] + CrToLf([]);
    assert CrToLf("\r") == ['\n'] + CrToLf([]);
  }

  /** However a line ends, it ends. */
  lemma BreaksAreAlike(a: string, s: string, b: string)
    requires s in {"\r", "\r\n"} && (a != [] ==> a[|a| - 1] != '\r') && (s == "\r" && b != [] ==> b[0] != '\n')
    ensures Unified(a + s + b) == Unified(a + "\n" + b)
    ensures Normalize(a + s + b) == Normalize(a + "\n" + b)
  {
    OneBreak(s);
    OneBreak("\n");
    assert a + s + b == a + (s + b) && a + "\n" + b == a + ("\n" + b);
    UnifiedConcat(a, s + b);
    UnifiedConcat(s, b);
    UnifiedConcat(a, "\n" + b);
    UnifiedConcat("\n", b);
  }

  // ---- control characters ----

  lemma ControlCodes(c: char)
    ensures ControlCode(c) <==> IsControl(c)
  {
  }

  lemma ControlGoes(a: string, c: char, b: string)
    requires ControlCode(c) && Lacks(a + [c] + b, '\r')
    ensures Normalize(a + [c] + b) == Normalize(a + b)
  {
    assert forall x :: x in a + b ==> x in a + [c] + b;
    CrLfFixed(a + [c] + b);
    CrLfFixed(a + b);
    ControlIsDropped(a, c, b);
  }

  lemma ControlIsDropped(a: string, c: char, b: string)
    requires ControlCode(c)
    ensures DropControls(a + [c] + b) == DropControls(a + b)
  {
    ControlCodes(c);
    FilterConcat(a + [c], b, NotControl);
    FilterConcat(a, [c], NotControl);
    FilterConcat(a, b, NotControl);
    FilterNone([c], NotControl);
  }

  // ---- blanks ----

  lemma {:induction false} SkipConcat(a: string, b: string)
    ensures SkipBlanks(a + b) == if SkipBlanks(a) == [] then SkipBlanks(b) else SkipBlanks(a) + b
  {
    if a == [] {
      assert a + b == b;
    } else {
      assert (a + b)[1..] == a[1..] + b;
      if IsBlank(a[0]) { SkipConcat(a[1..], b); }
    }
  }

  predicate AllBlank(s: string) { forall i :: 0 <= i < |s| ==> IsBlank(s[i]) }

  lemma {:induction false} SkipAll(s: string, b: string)
    requires AllBlank(s)
    ensures SkipBlanks(s + b) == SkipBlanks(b)
  {
    if s == [] {
      assert s + b == b;
    } else {
      assert (s + b)[1..] == s[1..] + b;
      SkipAll(s[1..], b);
    }
  }

  /** A run of blanks counts as one space, wherever it stands. */
  lemma {:induction false} BlanksAreAlike(a: string, s: string, b: string)
    requires s != [] && AllBlank(s)
    ensures CollapseBlanks(a + (s + b)) == CollapseBlanks(a + (" " + b))
    decreases |a|
  {
    if SkipBlanks(a) == [] {
      CollapseAllBlank(a, s, b);
      CollapseAllBlank(a, " ", b);
    } else {
      CollapseHead(a, s + b);
      CollapseHead(a, " " + b);
      BlanksAreAlike(if IsBlank(a[0]) then SkipBlanks(a) else a[1..], s, b);
    }
  }

  lemma CollapseAllBlank(a: string, s: string, b: string)
    requires SkipBlanks(a) == [] && s != [] && AllBlank(s)
    ensures CollapseBlanks(a + (s + b)) == [' '] + CollapseBlanks(SkipBlanks(b))
  {
    SkipConcat(a, s + b);
    SkipAll(s, b);
    assert (a + (s + b))[0] == if a == [] then s[0] else a[0];
  }

  lemma CollapseHead(a: string, z: string)
    requires SkipBlanks(a) != []
    ensures CollapseBlanks(a + z)
            == if IsBlank(a[0]) then [' '] + CollapseBlanks(SkipBlanks(a) + z) else [a[0]] + CollapseBlanks(a[1..] + z)
  {
    SkipConcat(a, z);
    assert (a + z)[1..] == a[1..] + z;
  }

  lemma BlanksAreKept(a: string, s: string, b: string)
    requires AllBlank(s)
    ensures DropControls(a + s + b) == DropControls(a) + s + DropControls(b)
  {
    FilterConcat(a + s, b, NotControl);
    FilterConcat(a, s, NotControl);
    FilterAll(s, NotControl);
  }

  lemma BlanksInText(a: string, s: string, b: string)
    requires s != [] && AllBlank(s) && Lacks(a, '\r') && Lacks(s, '\r') && Lacks(b, '\r')
    ensures Normalize(a + s + b) == Normalize(a + " " + b)
  {
    CrLfFixed(a + s + b);
    CrLfFixed(a + " " + b);
    BlanksAreKept(a, s, b);
    BlanksAreKept(a, " ", b);
    BlanksCollapse(DropControls(a), s, DropControls(b));
  }

  lemma BlanksCollapse(x: string, s: string, y: string)
    requires s != [] && AllBlank(s)
    ensures CollapseBlanks(x + s + y) == CollapseBlanks(x + " " + y)
  {
    BlanksAreAlike(x, s, y);
    assert x + s + y == x + (s + y) && x + " " + y == x + (" " + y);
  }

  // ---- newlines ----

  lemma {:induction false} CollapseBefore(a: string, b: string)
    requires b == [] || !IsBlank(b[0])
    ensures CollapseBlanks(a + b) == CollapseBlanks(a) + CollapseBlanks(b)
    decreases |a|
  {
    if a == [] {
      assert a + b == b;
    } else if IsBlank(a[0]) {
      SkipConcat(a, b);
      if b != [] { assert SkipBlanks(b) == b; }
      CollapseBefore(SkipBlanks(a), b);
      if SkipBlanks(a) == [] { assert SkipBlanks(a) + b == b; }
    } else {
      assert (a + b)[1..] == a[1..] + b;
      CollapseBefore(a[1..], b);
    }
  }

  lemma {:induction false} RunConcat(n: nat, b: string)
    ensures NewlineRun(Newlines(n) + b) == n + NewlineRun(b)
  {
    if n == 0 {
      assert Newlines(0) + b == b;
    } else {
      assert (Newlines(n) + b)[1..] == Newlines(n - 1) + b;
      RunConcat(n - 1, b);
    }
  }

  function Newlines(n: nat): string { seq(n, _ => '\n') }

  /** Three newlines and more count as two, wherever they stand. */
  lemma {:induction false} CapAlike(a: string, b: string)
    ensures CapNewlines(a + (Newlines(3) + b)) == CapNewlines(a + (Newlines(2) + b))
    decreases |a|
  {
    var n := NewlineRun(a);
    if n == |a| {
      RunIsNewlines(a);
      CapAfterRun(n, b);
      assert a == Newlines(n);
    } else {
      CapHead(a, n, Newlines(3) + b);
      CapHead(a, n, Newlines(2) + b);
      CapAlike(a[if n == 0 then 1 else n..], b);
    }
  }

  lemma CapAfterRun(n: nat, b: string)
    ensures CapNewlines(Newlines(n) + (Newlines(3) + b)) == CapNewlines(Newlines(n) + (Newlines(2) + b))
  {
    CapRun(n + 3, b);
    CapRun(n + 2, b);
    assert Newlines(n) + (Newlines(3) + b) == Newlines(n + 3) + b && Newlines(n) + (Newlines(2) + b) == Newlines(n + 2) + b;
  }

  function HeadOf(a: string, n: nat): string
    requires n < |a|
  {
    if n == 0 then [a[0]] else if n >= 3 then "\n\n" else a[..n]
  }

  /** What comes after a text's first run does not change what becomes of the run. */
  lemma CapHead(a: string, n: nat, z: string)
    requires n == NewlineRun(a) < |a|
    ensures var m := if n == 0 then 1 else n; CapNewlines(a + z) == HeadOf(a, n) + CapNewlines(a[m..] + z)
  {
    RunStops(a, z);
    var m := if n == 0 then 1 else n;
    assert (a + z)[m..] == a[m..] + z && (a + z)[..n] == a[..n];
  }

  lemma {:induction false} RunStops(a: string, z: string)
    requires NewlineRun(a) < |a|
    ensures NewlineRun(a + z) == NewlineRun(a)
  {
    if a[0] == '\n' {
      assert (a + z)[1..] == a[1..] + z;
      RunStops(a[1..], z);
    }
  }

  lemma CapRun(n: nat, b: string)
    requires n >= 2
    ensures CapNewlines(Newlines(n) + b) == "\n\n" + CapNewlines(b[NewlineRun(b)..])
  {
    RunConcat(n, b);
    CapAt(Newlines(n), b, NewlineRun(b));
  }

  lemma CapAt(a: string, b: string, m: nat)
    requires m <= |b| && NewlineRun(a + b) == |a| + m >= 2
    ensures CapNewlines(a + b) == "\n\n" + CapNewlines(b[m..])
  {
    CapLongRun(a + b, |a| + m);
    assert (a + b)[|a| + m..] == b[m..];
  }

  lemma CapLongRun(t: string, n: nat)
    requires n == NewlineRun(t) >= 2
    ensures CapNewlines(t) == "\n\n" + CapNewlines(t[n..])
  {
    RunIsNewlines(t);
    if n == 2 { assert t[..2] == [t[0], t[1]] == "\n\n"; }
  }

  lemma NewlinesCap(x: string, y: string)
    ensures CapNewlines(x + Newlines(3) + y) == CapNewlines(x + Newlines(2) + y)
  {
    CapAlike(x, y);
    assert x + Newlines(3) + y == x + (Newlines(3) + y) && x + Newlines(2) + y == x + (Newlines(2) + y);
  }

  lemma NewlinesInText(a: string, b: string)
    requires Lacks(a + "\n\n\n" + b, '\r')
    ensures Normalize(a + "\n\n\n" + b) == Normalize(a + "\n\n" + b)
  {
    NewlinesThrough(a, 3, b);
    NewlinesThrough(a, 2, b);
    assert "\n\n\n" == Newlines(3) && "\n\n" == Newlines(2);
    NewlinesCap(CollapseBlanks(DropControls(a)), CollapseBlanks(DropControls(b)));
  }

  lemma NewlinesThrough(a: string, n: nat, b: string)
    requires Lacks(a, '\r') && Lacks(b, '\r') && n > 0
    ensures CollapseBlanks(DropControls(CrToLf(JoinCrLf(a + Newlines(n) + b))))
            == CollapseBlanks(DropControls(a)) + Newlines(n) + CollapseBlanks(DropControls(b))
  {
    CrLfFixed(a + Newlines(n) + b);
    NewlinesAreKept(a, n, b);
    NewlinesBetween(DropControls(a), n, DropControls(b));
  }

  lemma NewlinesAreKept(a: string, n: nat, b: string)
    ensures DropControls(a + Newlines(n) + b) == DropControls(a) + Newlines(n) + DropControls(b)
  {
    FilterConcat(a + Newlines(n), b, NotControl);
    FilterConcat(a, Newlines(n), NotControl);
    FilterAll(Newlines(n), NotControl);
  }

  lemma NewlinesBetween(x: string, n: nat, y: string)
    requires n > 0
    ensures CollapseBlanks(x + Newlines(n) + y) == CollapseBlanks(x) + Newlines(n) + CollapseBlanks(y)
  {
    assert x + Newlines(n) + y == x + (Newlines(n) + y);
    CollapseBefore(x, Newlines(n) + y);
    NewlinesStay(n, y);
  }

  lemma {:induction false} NewlinesStay(n: nat, b: string)
    ensures CollapseBlanks(Newlines(n) + b) == Newlines(n) + CollapseBlanks(b)
  {
    if n == 0 {
      assert Newlines(0) + b == b && Newlines(0) + CollapseBlanks(b) == CollapseBlanks(b);
    } else {
      assert (Newlines(n) + b)[1..] == Newlines(n - 1) + b;
      NewlinesStay(n - 1, b);
      assert Newlines(n) == ['\n'] + Newlines(n - 1);
    }
  }

  // ---- the ends ----

  lemma InsideIsStripped(t: string)
    requires Inside(t)
    ensures Normalize(t) == Strip(t)
  {
    CrLfFixed(t);
    FilterAll(t, NotControl);
    CollapseFixed(t);
    CapFixed(t);
  }

  lemma OuterSpaceGoes(a: string, t: string, b: string)
    requires Inside(a + t + b) && Blank(a) && Blank(b)
    ensures Normalize(a + t + b) == Normalize(t)
  {
    var whole := a + t + b;
    assert whole[|a|..|a| + |t|] == t;
    SliceKeeps(whole, |a|, |a| + |t|);
    InsideIsStripped(whole);
    InsideIsStripped(t);
    StripAround(a, t, b);
  }

  // ---- the rules and the chain of operations ----

  lemma RuleKeeps(rule: Rule, t: string, i: nat, u: string)
    requires Applies(rule, t, i, u)
    ensures Normalize(t) == Normalize(u)
  {
    match rule
    case CrLf =>
      assert t == t[..i] + "\r\n" + t[i + 2..];
      BreaksAreAlike(t[..i], "\r\n", t[i + 2..]);
    case LoneCr =>
      assert t == t[..i] + "\r" + t[i + 1..];
      LoneIsLone(t, i);
      BreaksAreAlike(t[..i], "\r", t[i + 1..]);
    case OuterSpace => OuterRuleKeeps(t, i, u);
    case _ => InnerRuleKeeps(rule, t, i, u);
  }

  lemma InnerRuleKeeps(rule: Rule, t: string, i: nat, u: string)
    requires Applies(rule, t, i, u) && (rule.Control? || rule.Tab? || rule.TwoSpaces? || rule.ThreeNewlines?)
    ensures Normalize(t) == Normalize(u)
  {
    var a := t[..i];
    match rule
    case Control =>
      assert t == a + [t[i]] + t[i + 1..] && u == a + t[i + 1..];
      ControlGoes(a, t[i], t[i + 1..]);
    case Tab =>
      assert t == a + "\t" + t[i + 1..];
      BlanksInText(a, "\t", t[i + 1..]);
    case TwoSpaces =>
      assert t == a + "  " + t[i + 2..];
      BlanksInText(a, "  ", t[i + 2..]);
    case ThreeNewlines =>
      assert t == a + "\n\n\n" + t[i + 3..];
      NewlinesInText(a, t[i + 3..]);
  }

  lemma OuterRuleKeeps(t: string, i: nat, u: string)
    requires Applies(OuterSpace, t, i, u)
    ensures Normalize(t) == Normalize(u)
  {
    if i == 0 {
      assert t == [t[0]] + u + [];
      OuterSpaceGoes([t[0]], u, []);
    } else {
      assert t == [] + u + [t[i]];
      OuterSpaceGoes([], u, [t[i]]);
    }
  }

  lemma LoneIsLone(t: string, i: nat)
    requires StartsAt(t, i, "\r") && !StartsAt(t, i, "\r\n")
    ensures t[i + 1..] != [] ==> t[i + 1..][0] != '\n'
  {
    if i + 1 < |t| { assert t[i..i + 2] == [t[i]] + [t[i + 1]]; }
  }

  // ---- every text comes to an end ----

  predicate CrOrTab(c: char) { c == '\r' || c == '\t' }

  /** What every rule makes smaller. */
  function Size(t: string): nat { |t| + Count(t, CrOrTab) }

  lemma {:induction false} CountConcat(a: string, b: string)
    ensures Count(a + b, CrOrTab) == Count(a, CrOrTab) + Count(b, CrOrTab)
  {
    if b == [] {
      assert a + b == a;
    } else {
      assert (a + b)[..|a + b| - 1] == a + b[..|b| - 1];
      CountConcat(a, b[..|b| - 1]);
    }
  }

  lemma ReplacedSize(t: string, i: nat, n: nat, s: string, u: string)
    requires Replaces(t, i, n, s, u)
    ensures Size(t) - Size(u) == Size(t[i..i + n]) - Size(s)
  {
    assert t == t[..i] + t[i..i + n] + t[i + n..];
    CountConcat(t[..i] + t[i..i + n], t[i + n..]);
    CountConcat(t[..i], t[i..i + n]);
    CountConcat(t[..i] + s, t[i + n..]);
    CountConcat(t[..i], s);
  }

  lemma RuleShrinks(rule: Rule, t: string, i: nat, u: string)
    requires Applies(rule, t, i, u)
    ensures Size(u) < Size(t)
  {
    match rule
    case CrLf => CountConcat("\r", "\n"); ReplacedSize(t, i, 2, "\n", u);
    case LoneCr => ReplacedSize(t, i, 1, "\n", u);
    case Control => ReplacedSize(t, i, 1, "", u);
    case Tab => ReplacedSize(t, i, 1, " ", u);
    case TwoSpaces => CountConcat(" ", " "); ReplacedSize(t, i, 2, " ", u);
    case ThreeNewlines => CountConcat("\n\n", "\n"); ReplacedSize(t, i, 3, "\n\n", u);
    case OuterSpace => ReplacedSize(t, i, 1, "", u);
  }

  /** The normal form is exactly where the rules stop. */
  lemma IrreducibleIffNormal(t: string)
    ensures Irreducible(t) <==> NormalForm(t)
  {
    if !Irreducible(t) {
      var u :| Rewrites(t, u);
      var rule, i: nat :| Applies(rule, t, i, u);
      AppliedIsNotNormal(rule, t, i, u);
    }
    if !NormalForm(t) { var u := Reduced(t); }
  }

  lemma StartsWith(t: string, i: nat, s: string)
    requires StartsAt(t, i, s)
    ensures forall k :: 0 <= k < |s| ==> t[i + k] == s[k]
  {
    forall k | 0 <= k < |s| ensures t[i + k] == s[k] { assert t[i..i + |s|][k] == s[k]; }
  }

  lemma AppliedIsNotNormal(rule: Rule, t: string, i: nat, u: string)
    requires Applies(rule, t, i, u)
    ensures !NormalForm(t)
  {
    match rule
    case CrLf => StartsWith(t, i, "\r\n"); assert t[i + 0] in t;
    case LoneCr => StartsWith(t, i, "\r"); assert t[i + 0] in t;
    case Control => ControlCodes(t[i]);
    case Tab => StartsWith(t, i, "\t"); assert t[i + 0] in t;
    case TwoSpaces => StartsWith(t, i, "  "); assert t[i + 0] == t[i + 1] == ' ';
    case ThreeNewlines => StartsWith(t, i, "\n\n\n"); assert t[i + 0] == t[i + 1] == t[i + 2] == '\n';
    case OuterSpace =>
  }

  lemma Reduced(t: string) returns (u: string)
    requires !NormalForm(t)
    ensures Rewrites(t, u)
  {
    if '\r' in t {
      u := BreakReduced(t);
    } else if i: nat :| i < |t| && IsControl(t[i]) {
      ControlCodes(t[i]);
      u := t[..i] + "" + t[i + 1..];
      assert Applies(Control, t, i, u);
    } else if '\t' in t {
      var i: nat :| i < |t| && t[i] == '\t';
      u := t[..i] + " " + t[i + 1..];
      assert Applies(Tab, t, i, u);
    } else if i: nat :| i < |t| - 1 && t[i] == ' ' && t[i + 1] == ' ' {
      u := t[..i] + " " + t[i + 2..];
      assert Applies(TwoSpaces, t, i, u);
    } else if i: nat :| i < |t| - 2 && t[i] == '\n' && t[i + 1] == '\n' && t[i + 2] == '\n' {
      u := t[..i] + "\n\n" + t[i + 3..];
      assert Applies(ThreeNewlines, t, i, u);
    } else {
      var i := if IsSpace(t[0]) then 0 else |t| - 1;
      u := t[..i] + "" + t[i + 1..];
      assert Applies(OuterSpace, t, i, u);
    }
  }

  lemma BreakReduced(t: string) returns (u: string)
    requires '\r' in t
    ensures Rewrites(t, u)
  {
    var i := FirstCr(t);
    if i > 0 { assert t[i - 1..i] == [t[i - 1]] && t[i - 1] == t[..i][i - 1]; }
    if i + 1 < |t| { assert t[i..i + 2] == [t[i]] + [t[i + 1]]; }
    if StartsAt(t, i, "\r\n") {
      u := t[..i] + "\n" + t[i + 2..];
      assert Applies(CrLf, t, i, u);
    } else {
      u := t[..i] + "\n" + t[i + 1..];
      assert Applies(LoneCr, t, i, u);
    }
  }

  lemma {:induction false} FirstCr(t: string) returns (i: nat)
    requires '\r' in t
    ensures i < |t| && t[i] == '\r' && '\r' !in t[..i]
  {
    if t[0] == '\r' {
      i := 0;
    } else {
      var j := FirstCr(t[1..]);
      i := j + 1;
      assert t[..i] == [t[0]] + t[1..][..j];
    }
  }

  lemma {:induction false} AllSame(xs: seq<string>)
    requires xs != [] && forall k :: 0 < k < |xs| ==> xs[k - 1] == xs[k]
    ensures xs[0] == xs[|xs| - 1]
  {
    if |xs| > 1 { AllSame(xs[..|xs| - 1]); }
  }

  lemma StepKeeps(t: string, u: string)
    requires Rewrites(t, u)
    ensures Normalize(t) == Normalize(u)
  {
    var rule, i: nat :| Applies(rule, t, i, u);
    RuleKeeps(rule, t, i, u);
  }

  lemma PathKeeps(path: seq<string>)
    requires IsPath(path)
    ensures Normalize(path[0]) == Normalize(path[|path| - 1])
  {
    var xs := seq(|path|, k requires 0 <= k < |path| => Normalize(path[k]));
    forall k | 0 < k < |path|
      ensures xs[k - 1] == xs[k]
    {
      StepKeeps(path[k - 1], path[k]);
    }
    AllSame(xs);
  }

  lemma OneStep(t: string) returns (u: string)
    requires !NormalForm(t)
    ensures Rewrites(t, u) && Size(u) < Size(t)
  {
    u := Reduced(t);
    var rule, i: nat :| Applies(rule, t, i, u);
    RuleShrinks(rule, t, i, u);
  }

  lemma LongerPath(t: string, path: seq<string>)
    requires IsPath(path) && Rewrites(t, path[0])
    ensures IsPath([t] + path)
  {
    var longer := [t] + path;
    forall k | 0 < k < |longer|
      ensures Rewrites(longer[k - 1], longer[k])
    {
      assert k > 1 ==> Rewrites(path[k - 2], path[k - 1]);
    }
  }

  lemma {:induction false} PathToNormal(t: string) returns (path: seq<string>)
    ensures IsPath(path) && path[0] == t && NormalForm(path[|path| - 1])
    decreases Size(t)
  {
    if NormalForm(t) {
      path := [t];
    } else {
      var u := OneStep(t);
      var rest := PathToNormal(u);
      LongerPath(t, rest);
      path := [t] + rest;
    }
  }

  /** Every text has exactly one form that it can be rewritten to and that no rule applies to, and the
      normaliser computes it. */
  lemma NormalizeByRules(t: string, u: string)
    ensures RewritesTo(t, u) && Irreducible(u) <==> u == Normalize(t)
  {
    IrreducibleIffNormal(u);
    if RewritesTo(t, u) && Irreducible(u) {
      var path :| IsPath(path) && path[0] == t && path[|path| - 1] == u;
      PathKeeps(path);
      NormalIsFixed(u);
    }
    if u == Normalize(t) {
      var path := PathToNormal(t);
      PathKeeps(path);
      NormalIsFixed(path[|path| - 1]);
      NormalizeIsNormal(t);
    }
  }
}
