/** The text normaliser of app/application/ingest/run_ingest_job.py and pipeline/02_clean.py; both
    files hold the same chain of string operations. */
module Normaliser {
  import opened Sequences
  import opened Texts

  /** `text.replace("\r\n", "\n")`. */
  function JoinCrLf(t: string): string {
    if t == [] then []
    else if t[0] == '\r' && 1 < |t| && t[1] == '\n' then ['\n'] + JoinCrLf(t[2..])
    else [t[0]] + JoinCrLf(t[1..])
  }

  /** `text.replace("\r", "\n")`. */
  function CrToLf(t: string): string {
    if t == [] then [] else [if t[0] == '\r' then '\n' else t[0]] + CrToLf(t[1..])
  }

  /** The class `[\x00-\x08\x0b\x0c\x0e-\x1f\x7f]`. */
  predicate IsControl(c: char) {
    var n := c as int;
    n <= 0x08 || n == 0x0b || n == 0x0c || 0x0e <= n <= 0x1f || n == 0x7f
  }

  predicate NotControl(c: char) { !IsControl(c) }

  function DropControls(t: string): string { Filter(t, NotControl) }

  predicate IsBlank(c: char) { c == ' ' || c == '\t' }

  function SkipBlanks(t: string): (r: string)
    ensures |r| <= |t|
    ensures t != [] && IsBlank(t[0]) ==> |r| < |t|
    ensures r != [] ==> !IsBlank(r[0])
  {
    if t != [] && IsBlank(t[0]) then SkipBlanks(t[1..]) else t
  }

  /** `re.sub(r"[ \t]+", " ", text)`. */
  function CollapseBlanks(t: string): string
    decreases |t|
  {
    if t == [] then []
    else if IsBlank(t[0]) then [' '] + CollapseBlanks(SkipBlanks(t))
    else [t[0]] + CollapseBlanks(t[1..])
  }

  /** The length of the run of newlines the text begins with. */
  function NewlineRun(t: string): (n: nat)
    ensures n <= |t|
    ensures n == 0 <==> t == [] || t[0] != '\n'
    ensures n < |t| ==> t[n] != '\n'
  {
    if t == [] || t[0] != '\n' then 0 else 1 + NewlineRun(t[1..])
  }

  /** `re.sub(r"\n{3,}", "\n\n", text)`. */
  function CapNewlines(t: string): string
    decreases |t|
  {
    if t == [] then []
    else
      var n := NewlineRun(t);
      if n == 0 then [t[0]] + CapNewlines(t[1..])
      else if n >= 3 then "\n\n" + CapNewlines(t[n..])
      else t[..n] + CapNewlines(t[n..])
  }

  function Normalize(t: string): string {
    Strip(CapNewlines(CollapseBlanks(DropControls(CrToLf(JoinCrLf(t))))))
  }

  // ---- the normal form ----

  predicate Lacks(t: string, c: char) { c !in t }

  predicate NoControl(t: string) {
    forall i :: 0 <= i < |t| ==> !IsControl(t[i])
  }

  predicate NoDoubleSpace(t: string) {
    forall i :: 0 <= i < |t| - 1 ==> !(t[i] == ' ' && t[i + 1] == ' ')
  }

  predicate NoTripleNewline(t: string) {
    forall i :: 0 <= i < |t| - 2 ==> !(t[i] == '\n' && t[i + 1] == '\n' && t[i + 2] == '\n')
  }

  /** Clean text, said without reference to how it is produced. */
  predicate NormalForm(t: string) {
    Lacks(t, '\r') && Lacks(t, '\t') && NoControl(t) && NoDoubleSpace(t) && NoTripleNewline(t) && Stripped(t)
  }

  // ---- each stage: what it removes, what it keeps ----

  lemma {:induction false} CrStages(t: string)
    ensures Lacks(CrToLf(t), '\r')
  {
    if t != [] { CrStages(t[1..]); }
  }

  lemma DropControlsStage(t: string)
    requires Lacks(t, '\r')
    ensures Lacks(DropControls(t), '\r') && NoControl(DropControls(t))
  {
    var r := DropControls(t);
    FilterMembers(t, NotControl);
    assert forall i :: 0 <= i < |r| ==> r[i] in r;
  }

  lemma {:induction false} CollapseStage(t: string)
    requires Lacks(t, '\r') && NoControl(t)
    ensures var r := CollapseBlanks(t);
            && Lacks(r, '\r') && Lacks(r, '\t') && NoControl(r) && NoDoubleSpace(r)
            && (t != [] && !IsBlank(t[0]) ==> r != [] && r[0] == t[0])
            && (r != [] ==> t != [])
    decreases |t|
  {
    if t != [] {
      if IsBlank(t[0]) {
        SkipBlanksKeeps(t);
        CollapseStage(SkipBlanks(t));
      } else {
        CollapseStage(t[1..]);
      }
    }
  }

  lemma {:induction false} SkipBlanksKeeps(t: string)
    requires Lacks(t, '\r') && NoControl(t)
    ensures Lacks(SkipBlanks(t), '\r') && NoControl(SkipBlanks(t))
  {
    if t != [] && IsBlank(t[0]) { SkipBlanksKeeps(t[1..]); }
  }

  lemma {:induction false} CapStage(t: string)
    requires Lacks(t, '\r') && Lacks(t, '\t') && NoControl(t) && NoDoubleSpace(t)
    ensures var r := CapNewlines(t);
            && Lacks(r, '\r') && Lacks(r, '\t') && NoControl(r) && NoDoubleSpace(r) && NoTripleNewline(r)
            && (t != [] ==> r != [] && r[0] == t[0])
            && (r != [] ==> t != [])
    decreases |t|
  {
    if t != [] {
      var n := NewlineRun(t);
      if n == 0 {
        CapStage(t[1..]);
      } else {
        RunIsNewlines(t);
        CapStage(t[n..]);
      }
    }
  }

  lemma {:induction false} RunIsNewlines(t: string)
    ensures forall i :: 0 <= i < NewlineRun(t) ==> t[i] == '\n'
  {
    if t != [] && t[0] == '\n' { RunIsNewlines(t[1..]); }
  }

  lemma StripStage(t: string)
    requires Lacks(t, '\r') && Lacks(t, '\t') && NoControl(t) && NoDoubleSpace(t) && NoTripleNewline(t)
    ensures NormalForm(Strip(t))
  {
    LStripSpec(t);
    RStripSpec(LStrip(t));
    var l := LStrip(t);
    var r := RStrip(l);
    SliceKeeps(t, |t| - |l|, |t|);
    SliceKeeps(l, 0, |r|);
    StripSpec(t);
  }

  lemma SliceKeeps(t: string, lo: nat, hi: nat)
    requires lo <= hi <= |t|
    requires Lacks(t, '\r') && Lacks(t, '\t') && NoControl(t) && NoDoubleSpace(t) && NoTripleNewline(t)
    ensures var r := t[lo..hi];
            Lacks(r, '\r') && Lacks(r, '\t') && NoControl(r) && NoDoubleSpace(r) && NoTripleNewline(r)
  {
    var r := t[lo..hi];
    assert forall k :: 0 <= k < |r| ==> r[k] == t[lo + k];
  }

  lemma NormalizeIsNormal(t: string)
    ensures NormalForm(Normalize(t))
  {
    var t1 := CrToLf(JoinCrLf(t));
    CrStages(JoinCrLf(t));
    var t2 := DropControls(t1);
    DropControlsStage(t1);
    var t3 := CollapseBlanks(t2);
    CollapseStage(t2);
    var t4 := CapNewlines(t3);
    CapStage(t3);
    StripStage(t4);
  }

  // ---- clean text passes through ----

  lemma {:induction false} CrLfFixed(t: string)
    requires Lacks(t, '\r')
    ensures JoinCrLf(t) == t && CrToLf(t) == t
  {
    if t != [] {
      assert t[0] in t;
      CrLfFixed(t[1..]);
    }
  }

  lemma {:induction false} CollapseFixed(t: string)
    requires Lacks(t, '\t') && NoDoubleSpace(t)
    ensures CollapseBlanks(t) == t
    decreases |t|
  {
    if t != [] {
      assert t[0] in t;
      CollapseFixed(t[1..]);
      if IsBlank(t[0]) {
        assert 1 < |t| ==> t[1] in t;
        assert SkipBlanks(t) == t[1..];
      }
    }
  }

  lemma {:induction false} CapFixed(t: string)
    requires NoTripleNewline(t)
    ensures CapNewlines(t) == t
    decreases |t|
  {
    if t != [] {
      var n := NewlineRun(t);
      RunIsNewlines(t);
      CapFixed(t[if n == 0 then 1 else n..]);
    }
  }

  lemma NormalIsFixed(t: string)
    requires NormalForm(t)
    ensures Normalize(t) == t
  {
    CrLfFixed(t);
    assert forall c :: c in t ==> exists i :: 0 <= i < |t| && t[i] == c;
    FilterAll(t, NotControl);
    CollapseFixed(t);
    CapFixed(t);
    StripStripped(t);
  }

  /** A text is left unchanged exactly when it is clean. */
  lemma UnchangedIffNormal(t: string)
    ensures Normalize(t) == t <==> NormalForm(t)
  {
    NormalizeIsNormal(t);
    if NormalForm(t) { NormalIsFixed(t); }
  }

  lemma NormalizeIdempotent(t: string)
    ensures Normalize(Normalize(t)) == Normalize(t)
  {
    NormalizeIsNormal(t);
    NormalIsFixed(Normalize(t));
  }

  // ---- nothing visible is lost ----

  predicate IsVisible(c: char) { !IsSpace(c) && !IsControl(c) }

  function Visible(t: string): string { Filter(t, IsVisible) }

  lemma VisibleConcat(a: string, b: string)
    ensures Visible(a + b) == Visible(a) + Visible(b)
  {
    FilterConcat(a, b, IsVisible);
  }

  lemma VisibleCut(t: string, n: nat)
    requires n <= |t|
    ensures Visible(t) == Visible(t[..n]) + Visible(t[n..])
  {
    assert t == t[..n] + t[n..];
    VisibleConcat(t[..n], t[n..]);
  }

  lemma {:induction false} InvisibleSpace(t: string)
    requires Blank(t)
    ensures Visible(t) == []
  {
    if t != [] { InvisibleSpace(t[1..]); }
  }

  lemma {:induction false} CrKeepsVisible(t: string)
    ensures Visible(JoinCrLf(t)) == Visible(t)
    ensures Visible(CrToLf(t)) == Visible(t)
    decreases |t|
  {
    if t != [] {
      CrKeepsVisible(t[1..]);
      if t[0] == '\r' && 1 < |t| && t[1] == '\n' {
        CrKeepsVisible(t[2..]);
        assert t[1..][1..] == t[2..];
      }
    }
  }

  lemma {:induction false} DropKeepsVisible(t: string)
    ensures Visible(DropControls(t)) == Visible(t)
  {
    if t != [] { DropKeepsVisible(t[1..]); }
  }

  lemma {:induction false} SkipKeepsVisible(t: string)
    ensures Visible(SkipBlanks(t)) == Visible(t)
  {
    if t != [] && IsBlank(t[0]) { SkipKeepsVisible(t[1..]); }
  }

  lemma {:induction false} CollapseKeepsVisible(t: string)
    ensures Visible(CollapseBlanks(t)) == Visible(t)
    decreases |t|
  {
    if t != [] {
      if IsBlank(t[0]) {
        SkipKeepsVisible(t);
        CollapseKeepsVisible(SkipBlanks(t));
      } else {
        CollapseKeepsVisible(t[1..]);
      }
    }
  }

  lemma {:induction false} CapKeepsVisible(t: string)
    ensures Visible(CapNewlines(t)) == Visible(t)
    decreases |t|
  {
    if t != [] {
      var n := NewlineRun(t);
      if n == 0 {
        CapKeepsVisible(t[1..]);
      } else {
        RunIsNewlines(t);
        VisibleCut(t, n);
        CapKeepsVisible(t[n..]);
        InvisibleSpace(t[..n]);
        var head := if n >= 3 then "\n\n" else t[..n];
        InvisibleSpace(head);
        VisibleConcat(head, CapNewlines(t[n..]));
      }
    }
  }

  lemma StripKeepsVisible(t: string)
    ensures Visible(Strip(t)) == Visible(t)
  {
    LStripSpec(t);
    RStripSpec(LStrip(t));
    var l := LStrip(t);
    VisibleCut(t, |t| - |l|);
    InvisibleSpace(t[..|t| - |l|]);
    VisibleCut(l, |RStrip(l)|);
    InvisibleSpace(l[|RStrip(l)|..]);
  }

  /** Every character that is neither white space nor control survives, in order. */
  lemma NormalizeKeepsVisible(t: string)
    ensures Visible(Normalize(t)) == Visible(t)
  {
    var t1 := JoinCrLf(t);
    CrKeepsVisible(t);
    CrKeepsVisible(t1);
    var t2 := CrToLf(t1);
    DropKeepsVisible(t2);
    var t3 := DropControls(t2);
    CollapseKeepsVisible(t3);
    CapKeepsVisible(CollapseBlanks(t3));
    StripKeepsVisible(CapNewlines(CollapseBlanks(t3)));
  }

  /** A text normalises to nothing exactly when nothing in it is visible. */
  lemma EmptyIffNothingVisible(t: string)
    ensures Normalize(t) == [] <==> Visible(t) == []
  {
    NormalizeKeepsVisible(t);
    NormalizeIsNormal(t);
    var r := Normalize(t);
    if r != [] {
      FilterMembers(r, IsVisible);
      assert IsVisible(r[0]) && r[0] in r;
      assert r[0] in Visible(r);
    }
  }

  // ---- pipeline/02_clean.py ----

  type Page = (int, string)

  /** The page as `run` keeps it: normalised, or dropped. */
  function CleanPage(p: Page): seq<Page> {
    var cleaned := Normalize(p.1);
    if cleaned != [] then [(p.0, cleaned)] else []
  }

  function CleanPages(pages: seq<Page>): seq<Page> {
    if pages == [] then [] else CleanPages(pages[..|pages| - 1]) + CleanPage(pages[|pages| - 1])
  }

  /** What `run` takes and returns: a whole text, or pages. */
  datatype Content = WholeText(text: string) | PageList(pages: seq<Page>)

  method Run(content: Content) returns (cleaned: Content)
    ensures cleaned == match content
                       case WholeText(text) => WholeText(Normalize(text))
                       case PageList(pages) => PageList(CleanPages(pages))
  {
    match content
    case WholeText(text) => cleaned := WholeText(Normalize(text));
    case PageList(pages) =>
      var result := RunPages(pages);
      cleaned := PageList(result);
  }

  /** `run` on a list of pages. */
  method RunPages(pages: seq<Page>) returns (result: seq<Page>)
    ensures result == CleanPages(pages)
  {
    result := [];
    for i := 0 to |pages|
      invariant result == CleanPages(pages[..i])
    {
      assert pages[..i + 1][..i] == pages[..i];
      var (pageNum, text) := pages[i];
      var cleaned := Normalize(text);
      if cleaned != [] {
        result := result + [(pageNum, cleaned)];
      }
    }
    assert pages[..|pages|] == pages;
  }

  predicate PageVisible(p: Page) { Visible(p.1) != [] }

  function Cleaned(pages: seq<Page>): seq<Page> {
    seq(|pages|, k requires 0 <= k < |pages| => (pages[k].0, Normalize(pages[k].1)))
  }

  lemma CleanPageFixed(p: Page)
    requires Normalize(p.1) != []
    ensures CleanPage((p.0, Normalize(p.1))) == [(p.0, Normalize(p.1))]
    ensures NormalForm(Normalize(p.1))
  {
    NormalizeIdempotent(p.1);
    NormalizeIsNormal(p.1);
  }

  lemma CleanPagesConcat(a: seq<Page>, b: seq<Page>)
    ensures CleanPages(a + b) == CleanPages(a) + CleanPages(b)
  {
    if b == [] {
      assert a + b == a;
    } else {
      assert (a + b)[..|a + b| - 1] == a + b[..|b| - 1];
      CleanPagesConcat(a, b[..|b| - 1]);
    }
  }

  /** Cleaning keeps, in order and under their own numbers, exactly the pages with something visible, each with
      its normalised text. */
  lemma {:induction false} CleanPagesKeepsVisiblePages(pages: seq<Page>)
    ensures CleanPages(pages) == Cleaned(Filter(pages, PageVisible))
  {
    if pages != [] {
      var n := |pages| - 1;
      CleanPagesKeepsVisiblePages(pages[..n]);
      EmptyIffNothingVisible(pages[n].1);
      assert pages == pages[..n] + [pages[n]];
      FilterConcat(pages[..n], [pages[n]], PageVisible);
      assert Filter([pages[n]], PageVisible) == if PageVisible(pages[n]) then [pages[n]] else [];
    }
  }

  predicate PageClean(p: Page) { p.1 != [] && NormalForm(p.1) }

  /** What is kept is clean, and cleaning it again changes nothing. */
  lemma {:induction false} CleanPagesIdempotent(pages: seq<Page>)
    ensures forall i :: 0 <= i < |CleanPages(pages)| ==> PageClean(CleanPages(pages)[i])
    ensures CleanPages(CleanPages(pages)) == CleanPages(pages)
  {
    if pages != [] {
      var n := |pages| - 1;
      CleanPagesIdempotent(pages[..n]);
      CleanOnePage(pages[n]);
      CleanPagesConcat(CleanPages(pages[..n]), CleanPage(pages[n]));
    }
  }

  lemma CleanOnePage(p: Page)
    ensures CleanPages(CleanPage(p)) == CleanPage(p)
    ensures forall i :: 0 <= i < |CleanPage(p)| ==> PageClean(CleanPage(p)[i])
  {
    if Normalize(p.1) != [] {
      CleanPageFixed(p);
      var q := (p.0, Normalize(p.1));
      assert CleanPages([q]) == CleanPages([q][..0]) + CleanPage(q);
    }
  }
}
