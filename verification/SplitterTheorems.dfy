/** What splitting a document into sections keeps, and what it gives back. */
module SplitterTheorems {
  import opened Sequences
  import opened Texts
  import opened HeadingSplitter

  // ---- conservation ----

  function InkOfPieces(ps: seq<Piece>): string {
    if ps == [] then [] else Ink(ps[0].content) + InkOfPieces(ps[1..])
  }

  lemma {:induction false} InkOfPiecesConcat(a: seq<Piece>, b: seq<Piece>)
    ensures InkOfPieces(a + b) == InkOfPieces(a) + InkOfPieces(b)
  {
    if a == [] {
      assert a + b == b;
    } else {
      assert (a + b)[1..] == a[1..] + b;
      InkOfPiecesConcat(a[1..], b);
    }
  }

  lemma EmitKeepsInk(path: seq<string>, block: seq<string>)
    ensures InkOfPieces(Emit(path, block)) == InkOfLines(block)
  {
    InkOfJoin(block);
    InkStrip(Join(block));
    var content := Strip(Join(block));
    if content != [] {
      assert [Piece(path, content)][1..] == [];
    } else {
      NoInkIsBlank(Join(block));
    }
  }

  lemma {:induction false} PiecesKeepInk(path: seq<string>, block: seq<string>, lines: seq<string>)
    ensures InkOfPieces(Pieces(path, block, lines)) == InkOfLines(block) + InkOfLines(lines)
    decreases |lines|
  {
    if lines == [] {
      EmitKeepsInk(path, block);
    } else {
      var line, rest := lines[0], lines[1..];
      PiecesNext(path, block, lines);
      match HeadingOf(line)
      case Some(h) =>
        PiecesKeepInk(NewPath(path, h), [line], rest);
        HeadingKeepsInk(path, block, line, rest, Pieces(NewPath(path, h), [line], rest));
      case None =>
        PiecesKeepInk(path, block + [line], rest);
        LineJoinsBlock(block, line, rest);
        assert [line] + rest == lines;
    }
  }

  lemma HeadingKeepsInk(path: seq<string>, block: seq<string>, line: string, rest: seq<string>, later: seq<Piece>)
    requires InkOfPieces(later) == InkOfLines([line]) + InkOfLines(rest)
    ensures InkOfPieces(Emit(path, block) + later) == InkOfLines(block) + InkOfLines([line] + rest)
  {
    EmitKeepsInk(path, block);
    InkOfPiecesConcat(Emit(path, block), later);
    InkOfLinesConcat([line], rest);
  }

  lemma LineJoinsBlock(block: seq<string>, line: string, rest: seq<string>)
    ensures InkOfLines(block + [line]) + InkOfLines(rest) == InkOfLines(block) + InkOfLines([line] + rest)
  {
    InkOfLinesConcat(block, [line]);
    InkOfLinesConcat([line], rest);
  }

  /** The characters of the sections that are not white space are exactly those of the document, in order. */
  lemma SplitKeepsInk(text: string)
    ensures InkOfPieces(Split(text)) == Ink(text)
  {
    var t := Strip(text);
    PiecesKeepInk([], [], SplitLines(t));
    InkOfSplit(t);
    InkStrip(text);
  }

  /** A document gives no section exactly when it is blank, so `split` never reaches its fallback. */
  lemma NoSectionIffBlank(text: string)
    ensures Split(text) == [] <==> Blank(text)
  {
    SplitKeepsInk(text);
    NoInkIsBlank(text);
    if Blank(text) {
      assert Strip(text) == [];
    }
  }

  // ---- the outline of a document ----

  ghost predicate NoHeading(ls: seq<string>) {
    forall i :: 0 <= i < |ls| ==> HeadingOf(ls[i]).None?
  }

  ghost predicate HeadBlock(b: seq<string>) {
    b != [] && HeadingOf(b[0]).Some? && NoHeading(b[1..])
  }

  ghost predicate HeadBlocks(bs: seq<seq<string>>) {
    forall i :: 0 <= i < |bs| ==> HeadBlock(bs[i])
  }

  ghost predicate CleanBlocks(bs: seq<seq<string>>) {
    forall k :: 0 <= k < |bs| ==> CleanLines(bs[k])
  }

  /** How many lines come before the first heading. */
  function Cut(ls: seq<string>): (n: nat)
    ensures n <= |ls|
  {
    if ls == [] || HeadingOf(ls[0]).Some? then 0 else 1 + Cut(ls[1..])
  }

  lemma {:induction false} CutSpec(ls: seq<string>)
    ensures NoHeading(ls[..Cut(ls)])
    ensures Cut(ls) < |ls| ==> HeadingOf(ls[Cut(ls)]).Some?
  {
    if ls != [] && HeadingOf(ls[0]).None? {
      CutSpec(ls[1..]);
      assert ls[..Cut(ls)] == [ls[0]] + ls[1..][..Cut(ls) - 1];
    }
  }

  lemma {:induction false} CutOf(pre: seq<string>, rest: seq<string>)
    requires NoHeading(pre) && (rest == [] || HeadingOf(rest[0]).Some?)
    ensures Cut(pre + rest) == |pre|
  {
    if pre == [] {
      assert pre + rest == rest;
    } else {
      assert (pre + rest)[1..] == pre[1..] + rest;
      CutOf(pre[1..], rest);
    }
  }

  /** The lines from the first heading on, one block to a heading. */
  function BlocksOf(ls: seq<string>): seq<seq<string>>
    decreases |ls|
  {
    if ls == [] then []
    else
      var n := 1 + Cut(ls[1..]);
      [ls[..n]] + BlocksOf(ls[n..])
  }

  lemma {:induction false} BlocksAreHeaded(ls: seq<string>)
    requires ls == [] || HeadingOf(ls[0]).Some?
    ensures HeadBlocks(BlocksOf(ls))
    decreases |ls|
  {
    if ls != [] {
      var n := 1 + Cut(ls[1..]);
      CutSpec(ls[1..]);
      assert ls[..n][1..] == ls[1..][..n - 1];
      assert n < |ls| ==> ls[n..][0] == ls[1..][n - 1];
      BlocksAreHeaded(ls[n..]);
    }
  }

  function Concat(bs: seq<seq<string>>): seq<string> {
    if bs == [] then [] else bs[0] + Concat(bs[1..])
  }

  lemma ConcatStarts(bs: seq<seq<string>>)
    requires HeadBlocks(bs)
    ensures Concat(bs) == [] || HeadingOf(Concat(bs)[0]).Some?
    ensures bs != [] ==> Concat(bs) != []
  {
  }

  lemma {:induction false} BlocksOfConcat(bs: seq<seq<string>>)
    requires HeadBlocks(bs)
    ensures BlocksOf(Concat(bs)) == bs
  {
    if bs != [] {
      var ls, n := Concat(bs), |bs[0]|;
      ConcatStarts(bs[1..]);
      assert ls[1..] == bs[0][1..] + Concat(bs[1..]);
      CutOf(bs[0][1..], Concat(bs[1..]));
      assert ls[..n] == bs[0] && ls[n..] == Concat(bs[1..]);
      BlocksOfConcat(bs[1..]);
      assert bs == [bs[0]] + bs[1..];
    }
  }

  /** The sections of headed blocks: one each, its path extended by the block's heading. */
  function HeadPieces(path: seq<string>, bs: seq<seq<string>>): seq<Piece>
    requires forall i :: 0 <= i < |bs| ==> bs[i] != []
    decreases |bs|
  {
    if bs == [] then []
    else
      match HeadingOf(bs[0][0])
      case None => []
      case Some(h) => Emit(NewPath(path, h), bs[0]) + HeadPieces(NewPath(path, h), bs[1..])
  }

  /** The loop of the splitter and the outline agree. */
  lemma {:induction false} PiecesByBlocks(path: seq<string>, block: seq<string>, ls: seq<string>)
    ensures HeadBlocks(BlocksOf(ls[Cut(ls)..]))
    ensures Pieces(path, block, ls) ==
            Emit(path, block + ls[..Cut(ls)]) + HeadPieces(path, BlocksOf(ls[Cut(ls)..]))
    decreases |ls|
  {
    var n := Cut(ls);
    CutSpec(ls);
    BlocksAreHeaded(ls[n..]);
    PiecesOverBody(path, block, ls);
    if n < |ls| {
      var rest, tail := ls[n..], ls[n..][1..];
      var h := HeadingOf(rest[0]).value;
      PiecesNext(path, block + ls[..n], rest);
      PiecesByBlocks(NewPath(path, h), [rest[0]], tail);
      HeadPiecesNext(path, rest);
    }
  }

  lemma HeadPiecesNext(path: seq<string>, rest: seq<string>)
    requires rest != [] && HeadingOf(rest[0]).Some?
    requires HeadBlocks(BlocksOf(rest)) && HeadBlocks(BlocksOf(rest[1..][Cut(rest[1..])..]))
    ensures var p, m := NewPath(path, HeadingOf(rest[0]).value), Cut(rest[1..]);
            HeadPieces(path, BlocksOf(rest)) ==
            Emit(p, [rest[0]] + rest[1..][..m]) + HeadPieces(p, BlocksOf(rest[1..][m..]))
  {
    var m := Cut(rest[1..]);
    var first := rest[..1 + m];
    assert first == [rest[0]] + rest[1..][..m];
    assert rest[1..][m..] == rest[1 + m..];
    assert BlocksOf(rest) == [first] + BlocksOf(rest[1 + m..]);
    HeadPiecesCons(path, first, BlocksOf(rest[1 + m..]));
  }

  lemma HeadPiecesCons(path: seq<string>, b: seq<string>, bs: seq<seq<string>>)
    requires b != [] && HeadingOf(b[0]).Some? && HeadBlocks(bs)
    ensures HeadPieces(path, [b] + bs) ==
            Emit(NewPath(path, HeadingOf(b[0]).value), b) + HeadPieces(NewPath(path, HeadingOf(b[0]).value), bs)
  {
    assert ([b] + bs)[1..] == bs;
  }

  /** Lines that are no headings only lengthen the open block. */
  lemma {:induction false} PiecesOverBody(path: seq<string>, block: seq<string>, ls: seq<string>)
    ensures Pieces(path, block, ls) == Pieces(path, block + ls[..Cut(ls)], ls[Cut(ls)..])
    decreases |ls|
  {
    var n := Cut(ls);
    if n == 0 {
      assert block + ls[..0] == block && ls[0..] == ls;
    } else {
      PiecesNext(path, block, ls);
      PiecesOverBody(path, block + [ls[0]], ls[1..]);
      assert block + [ls[0]] + ls[1..][..n - 1] == block + ls[..n];
      assert ls[1..][n - 1..] == ls[n..];
    }
  }

  lemma HeadingNotBlank(line: string)
    requires HeadingOf(line).Some?
    ensures !Blank(line) && Strip(line) != []
  {
    NoInkIsBlank(line);
  }

  lemma NotBlankJoin(b: seq<string>)
    requires b != [] && !Blank(b[0])
    ensures Strip(Join(b)) != []
  {
    NoInkIsBlank(b[0]);
    InkOfJoin(b);
    NoInkIsBlank(Join(b));
  }

  lemma {:induction false} HeadPiecesShape(path: seq<string>, bs: seq<seq<string>>)
    requires HeadBlocks(bs)
    ensures |HeadPieces(path, bs)| == |bs|
    ensures forall k :: 0 <= k < |bs| ==> HeadPieces(path, bs)[k].content == Strip(Join(bs[k]))
    ensures forall k :: 0 <= k < |bs| ==> HeadPieces(path, bs)[k].content != []
    decreases |bs|
  {
    if bs != [] {
      HeadingNotBlank(bs[0][0]);
      NotBlankJoin(bs[0]);
      HeadPiecesShape(NewPath(path, HeadingOf(bs[0][0]).value), bs[1..]);
    }
  }

  // ---- every heading opens a section ----

  function HeadingsIn(ls: seq<string>): seq<Heading> {
    if ls == [] then []
    else
      match HeadingOf(ls[0])
      case Some(h) => [h] + HeadingsIn(ls[1..])
      case None => HeadingsIn(ls[1..])
  }

  lemma {:induction false} HeadingsInConcat(a: seq<string>, b: seq<string>)
    ensures HeadingsIn(a + b) == HeadingsIn(a) + HeadingsIn(b)
  {
    if a == [] {
      assert a + b == b;
    } else {
      assert (a + b)[1..] == a[1..] + b;
      HeadingsInConcat(a[1..], b);
    }
  }

  lemma {:induction false} NoHeadings(ls: seq<string>)
    requires NoHeading(ls)
    ensures HeadingsIn(ls) == []
  {
    if ls != [] { NoHeadings(ls[1..]); }
  }

  function BlockHeading(b: seq<string>): Heading
    requires b != [] && HeadingOf(b[0]).Some?
  {
    HeadingOf(b[0]).value
  }

  lemma {:induction false} HeadingsOfBlocks(bs: seq<seq<string>>)
    requires HeadBlocks(bs)
    ensures |HeadingsIn(Concat(bs))| == |bs|
    ensures forall k :: 0 <= k < |bs| ==> HeadingsIn(Concat(bs))[k] == BlockHeading(bs[k])
  {
    if bs != [] {
      HeadingsOfBlocks(bs[1..]);
      HeadingsInConcat(bs[0], Concat(bs[1..]));
      NoHeadings(bs[0][1..]);
      assert HeadingsIn(bs[0]) == [BlockHeading(bs[0])];
    }
  }

  lemma {:induction false} ConcatBlocks(ls: seq<string>)
    ensures Concat(BlocksOf(ls)) == ls
    decreases |ls|
  {
    if ls != [] {
      var n := 1 + Cut(ls[1..]);
      ConcatBlocks(ls[n..]);
      ConcatFirst(ls[..n], BlocksOf(ls[n..]));
      assert ls[..n] + ls[n..] == ls;
    }
  }

  lemma ConcatFirst(b: seq<string>, bs: seq<seq<string>>)
    ensures Concat([b] + bs) == b + Concat(bs)
  {
    assert ([b] + bs)[1..] == bs;
  }

  // ---- trimmed blocks ----

  function TrimHead(b: seq<string>): seq<string> {
    if b == [] then [] else if Blank(b[0]) then TrimHead(b[1..]) else [LStrip(b[0])] + b[1..]
  }

  function TrimTail(b: seq<string>): seq<string> {
    if b == [] then []
    else if Blank(b[|b| - 1]) then TrimTail(b[..|b| - 1])
    else b[..|b| - 1] + [RStrip(b[|b| - 1])]
  }

  /** The lines of a block's content. */
  function Trim(b: seq<string>): seq<string> { TrimTail(TrimHead(b)) }

  lemma {:induction false} JoinTrimHead(b: seq<string>)
    ensures Join(TrimHead(b)) == LStrip(Join(b))
  {
    if b == [] {
    } else if |b| == 1 {
      if Blank(b[0]) {
        LStripAfterBlank(b[0], []);
        assert b[0] + [] == b[0];
      }
    } else {
      var head, tail := b[0] + ['\n'], Join(b[1..]);
      if Blank(b[0]) {
        LStripAfterBlank(head, tail);
        JoinTrimHead(b[1..]);
      } else {
        assert head + tail == b[0] + (['\n'] + tail);
        LStripConcat(b[0], ['\n'] + tail);
        assert ([LStrip(b[0])] + b[1..])[1..] == b[1..];
      }
    }
  }

  lemma {:induction false} JoinTrimTail(b: seq<string>)
    ensures Join(TrimTail(b)) == RStrip(Join(b))
  {
    if b != [] {
      var n := |b| - 1;
      var init, last := b[..n], b[n];
      assert b == init + [last];
      if n == 0 {
        if Blank(last) {
          RStripBeforeBlank([], last);
          assert [] + last == last;
          assert TrimTail(b) == TrimTail([]);
        } else {
          assert TrimTail(b) == [RStrip(last)];
        }
      } else {
        JoinConcat(init, [last]);
        if Blank(last) {
          assert Join(b) == Join(init) + (['\n'] + last);
          RStripBeforeBlank(Join(init), ['\n'] + last);
          JoinTrimTail(init);
        } else {
          RStripConcat(Join(init) + ['\n'], last);
          JoinConcat(init, [RStrip(last)]);
        }
      }
    }
  }

  lemma JoinTrim(b: seq<string>)
    ensures Join(Trim(b)) == Strip(Join(b))
  {
    JoinTrimHead(b);
    JoinTrimTail(TrimHead(b));
  }

  lemma SameHeading(line: string)
    ensures HeadingOf(LStrip(line)) == HeadingOf(line)
    ensures HeadingOf(RStrip(line)) == HeadingOf(line)
  {
    StripTrimmed(line);
  }

  lemma CleanParts(line: string)
    requires CleanLine(line)
    ensures CleanLine(LStrip(line)) && CleanLine(RStrip(line))
  {
    LStripSpec(line);
    RStripSpec(line);
  }

  lemma {:induction false} TrimHeadKeeps(b: seq<string>)
    ensures CleanLines(b) ==> CleanLines(TrimHead(b))
    ensures NoHeading(b) ==> NoHeading(TrimHead(b))
  {
    if b != [] {
      if Blank(b[0]) {
        TrimHeadKeeps(b[1..]);
      } else {
        FirstLineStripped(b);
      }
    }
  }

  lemma FirstLineStripped(b: seq<string>)
    requires b != []
    ensures CleanLines(b) ==> CleanLines([LStrip(b[0])] + b[1..])
    ensures NoHeading(b) ==> NoHeading([LStrip(b[0])] + b[1..])
  {
    SameHeading(b[0]);
    if CleanLines(b) { CleanParts(b[0]); }
  }

  lemma RStripLast(last: string)
    requires !Blank(last)
    ensures RStrip(last) != []
  {
    NoInkIsBlank(last);
    StripTrimmed(last);
    StripBlank([]);
  }

  lemma {:induction false} TrimTailKeeps(b: seq<string>)
    ensures CleanLines(b) ==> CleanLines(TrimTail(b))
    ensures NoHeading(b) ==> NoHeading(TrimTail(b))
    ensures TrimTail(b) != [] ==> TrimTail(b)[|TrimTail(b)| - 1] != []
  {
    if b != [] {
      var last := b[|b| - 1];
      if Blank(last) {
        TrimTailKeeps(b[..|b| - 1]);
      } else {
        SameHeading(last);
        RStripLast(last);
        if CleanLines(b) { CleanParts(last); }
      }
    }
  }

  lemma {:induction false} TrimTailKeepsHead(b: seq<string>)
    requires HeadBlock(b)
    ensures HeadBlock(TrimTail(b)) && BlockHeading(TrimTail(b)) == BlockHeading(b)
  {
    var n := |b| - 1;
    HeadingNotBlank(b[0]);
    SameHeading(b[n]);
    if Blank(b[n]) {
      assert b[..n][1..] == b[1..][..n - 1];
      TrimTailKeepsHead(b[..n]);
    } else {
      var r := b[..n] + [RStrip(b[n])];
      assert TrimTail(b) == r;
      forall i | 0 <= i < |r[1..]|
        ensures HeadingOf(r[1..][i]).None?
      {
        assert HeadingOf(b[1..][i]).None? && b[1..][i] == b[i + 1];
      }
    }
  }

  lemma TrimOfHeadBlock(b: seq<string>)
    requires HeadBlock(b) && CleanLines(b)
    ensures HeadBlock(Trim(b)) && BlockHeading(Trim(b)) == BlockHeading(b)
    ensures CleanLines(Trim(b)) && Trim(b)[|Trim(b)| - 1] != []
    ensures Join(Trim(b)) == Strip(Join(b))
  {
    HeadingNotBlank(b[0]);
    SameHeading(b[0]);
    TrimHeadKeeps(b);
    assert TrimHead(b)[1..] == b[1..];
    TrimTailKeeps(TrimHead(b));
    TrimTailKeepsHead(TrimHead(b));
    JoinTrim(b);
  }

  lemma TrimOfBody(b: seq<string>)
    requires NoHeading(b) && CleanLines(b)
    ensures NoHeading(Trim(b)) && CleanLines(Trim(b))
    ensures Trim(b) != [] ==> Trim(b)[|Trim(b)| - 1] != []
    ensures Join(Trim(b)) == Strip(Join(b))
    ensures Trim(b) == [] <==> Strip(Join(b)) == []
  {
    TrimHeadKeeps(b);
    TrimTailKeeps(TrimHead(b));
    JoinTrim(b);
    if Trim(b) != [] {
      var n := |Trim(b)| - 1;
      if n == 0 {
        assert Join(Trim(b)) == Trim(b)[0];
      } else {
        assert Trim(b)[..n] + [Trim(b)[n]] == Trim(b);
        JoinConcat(Trim(b)[..n], [Trim(b)[n]]);
      }
    }
  }

  // ---- joining the sections again ----

  /** `"\n\n".join(contents)`. */
  function JoinBlank(cs: seq<string>): string {
    if cs == [] then [] else if |cs| == 1 then cs[0] else cs[0] + ['\n'] + (['\n'] + JoinBlank(cs[1..]))
  }

  function Contents(ps: seq<Piece>): (cs: seq<string>)
    ensures |cs| == |ps|
    ensures forall k :: 0 <= k < |cs| ==> cs[k] == ps[k].content
  {
    seq(|ps|, k requires 0 <= k < |ps| => ps[k].content)
  }

  /** `c` is the content of the lines `ls`. */
  ghost predicate Tidy(c: string, ls: seq<string>) {
    ls != [] && CleanLines(ls) && ls[|ls| - 1] != [] && Join(ls) == c
  }

  ghost predicate AllTidy(cs: seq<string>, lss: seq<seq<string>>) {
    |cs| == |lss| && forall k :: 0 <= k < |cs| ==> Tidy(cs[k], lss[k])
  }

  /** The blocks of the joined text: each but the last has gained an empty line. */
  function Spaced(lss: seq<seq<string>>): (r: seq<seq<string>>)
    ensures |r| == |lss|
  {
    if lss == [] then [] else if |lss| == 1 then lss else [lss[0] + [[]]] + Spaced(lss[1..])
  }

  lemma {:induction false} SpacedAt(lss: seq<seq<string>>, k: nat)
    requires k < |lss|
    ensures Spaced(lss)[k] == if k == |lss| - 1 then lss[k] else lss[k] + [[]]
  {
    if |lss| > 1 && k > 0 { SpacedAt(lss[1..], k - 1); }
  }

  lemma {:induction false} SplitJoinBlank(cs: seq<string>, lss: seq<seq<string>>)
    requires AllTidy(cs, lss)
    ensures SplitLines(JoinBlank(cs)) == Concat(Spaced(lss))
  {
    if cs == [] {
    } else if |cs| == 1 {
      SplitJoin(lss[0]);
      assert Concat(lss) == lss[0] + Concat(lss[1..]);
    } else {
      assert Tidy(cs[0], lss[0]);
      SplitJoinBlank(cs[1..], lss[1..]);
      SplitSpacedFirst(lss[0], JoinBlank(cs[1..]));
      var tail := Spaced(lss[1..]);
      assert ([lss[0] + [[]]] + tail)[1..] == tail;
    }
  }

  lemma SplitSpacedFirst(ls: seq<string>, rest: string)
    requires ls != [] && CleanLines(ls)
    ensures SplitLines(Join(ls) + ['\n'] + (['\n'] + rest)) == ls + [[]] + SplitLines(rest)
  {
    SplitJoinThen(ls, ['\n'] + rest);
    SplitLeadingNewline(rest);
    assert ls + ([[]] + SplitLines(rest)) == ls + [[]] + SplitLines(rest);
  }

  lemma SplitLeadingNewline(rest: string)
    ensures SplitLines(['\n'] + rest) == [[]] + SplitLines(rest)
  {
    SplitFirst([], rest);
    assert [] + ['\n'] + rest == ['\n'] + rest;
  }

  lemma {:induction false} JoinBlankStripped(cs: seq<string>)
    requires FullAndStripped(cs)
    ensures Stripped(JoinBlank(cs))
    ensures cs != [] ==> JoinBlank(cs) != []
  {
    if |cs| > 1 {
      JoinBlankStripped(cs[1..]);
    }
  }

  /** Two headed blocks that give the same section. */
  ghost predicate Twins(a: seq<string>, b: seq<string>) {
    HeadBlock(a) && HeadBlock(b) && HeadingOf(a[0]) == HeadingOf(b[0]) && Strip(Join(a)) == Strip(Join(b))
  }

  lemma {:induction false} TwinPieces(path: seq<string>, as_: seq<seq<string>>, bs: seq<seq<string>>)
    requires |as_| == |bs| && HeadBlocks(as_) && HeadBlocks(bs)
    requires forall k :: 0 <= k < |as_| ==> Twins(as_[k], bs[k])
    ensures HeadPieces(path, as_) == HeadPieces(path, bs)
    decreases |bs|
  {
    if bs != [] {
      assert Twins(as_[0], bs[0]);
      var p := NewPath(path, HeadingOf(bs[0][0]).value);
      assert Emit(p, as_[0]) == Emit(p, bs[0]);
      TwinPieces(p, as_[1..], bs[1..]);
    }
  }

  lemma EmptyLineNoHeading()
    ensures HeadingOf([]).None?
  {
  }

  /** An empty line at the end of a trimmed block changes neither its heading nor its content. */
  lemma SpacedIsTwin(b: seq<string>)
    requires HeadBlock(b) && CleanLines(b)
    ensures Twins(Trim(b), b) && Twins(Trim(b) + [[]], b)
  {
    TrimOfHeadBlock(b);
    StripSpec(Join(b));
    StripStripped(Join(Trim(b)));
    EmptyLineAdded(Trim(b));
  }

  lemma EmptyLineAdded(t: seq<string>)
    requires HeadBlock(t)
    ensures HeadBlock(t + [[]]) && HeadingOf((t + [[]])[0]) == HeadingOf(t[0]) && Strip(Join(t + [[]])) == Strip(Join(t))
  {
    EmptyLineNoHeading();
    assert (t + [[]])[1..] == t[1..] + [[]];
    JoinConcat(t, [[]]);
    assert Join(t + [[]]) == Join(t) + ['\n'];
    StripBefore(Join(t), ['\n']);
  }

  lemma {:induction false} BlocksAreClean(ls: seq<string>)
    requires CleanLines(ls)
    ensures CleanBlocks(BlocksOf(ls))
    decreases |ls|
  {
    if ls != [] {
      BlocksAreClean(ls[1 + Cut(ls[1..])..]);
    }
  }

  /** The outline of a document: its preamble and its headed blocks. */
  ghost predicate Outline(text: string, pre: seq<string>, bs: seq<seq<string>>) {
    && NoHeading(pre) && CleanLines(pre)
    && HeadBlocks(bs) && CleanBlocks(bs)
    && SplitLines(Strip(text)) == pre + Concat(bs)
    && Split(text) == Emit([], pre) + HeadPieces([], bs)
  }

  lemma CutLines(ls: seq<string>) returns (pre: seq<string>, bs: seq<seq<string>>)
    requires CleanLines(ls)
    ensures NoHeading(pre) && CleanLines(pre)
    ensures HeadBlocks(bs) && CleanBlocks(bs)
    ensures ls == pre + Concat(bs)
  {
    var n := Cut(ls);
    pre, bs := ls[..n], BlocksOf(ls[n..]);
    CutHeads(ls);
    CutClean(ls, n);
    ConcatBlocks(ls[n..]);
  }

  lemma CutClean(ls: seq<string>, n: nat)
    requires CleanLines(ls) && n <= |ls|
    ensures CleanLines(ls[..n]) && CleanBlocks(BlocksOf(ls[n..])) && ls[..n] + ls[n..] == ls
  {
    BlocksAreClean(ls[n..]);
  }

  lemma CutHeads(ls: seq<string>)
    ensures NoHeading(ls[..Cut(ls)]) && HeadBlocks(BlocksOf(ls[Cut(ls)..]))
  {
    CutSpec(ls);
    BlocksAreHeaded(ls[Cut(ls)..]);
  }

  lemma OutlineOf(text: string) returns (pre: seq<string>, bs: seq<seq<string>>)
    ensures Outline(text, pre, bs)
  {
    SplitIsClean(Strip(text));
    pre, bs := CutLines(SplitLines(Strip(text)));
    PiecesOfOutline(pre, bs);
  }

  lemma PiecesOfOutline(pre: seq<string>, bs: seq<seq<string>>)
    requires NoHeading(pre) && HeadBlocks(bs)
    ensures Pieces([], [], pre + Concat(bs)) == Emit([], pre) + HeadPieces([], bs)
  {
    var ls := pre + Concat(bs);
    ConcatStarts(bs);
    CutOf(pre, Concat(bs));
    PiecesByBlocks([], [], ls);
    BlocksOfConcat(bs);
    assert ls[..|pre|] == pre && ls[|pre|..] == Concat(bs) && [] + pre == pre;
  }

  function Trims(bs: seq<seq<string>>): (r: seq<seq<string>>)
    ensures |r| == |bs|
    ensures forall k :: 0 <= k < |bs| ==> r[k] == Trim(bs[k])
  {
    seq(|bs|, k requires 0 <= k < |bs| => Trim(bs[k]))
  }

  lemma SpacedTwins(bs: seq<seq<string>>)
    requires HeadBlocks(bs) && CleanBlocks(bs)
    ensures HeadBlocks(Spaced(Trims(bs)))
    ensures HeadPieces([], Spaced(Trims(bs))) == HeadPieces([], bs)
  {
    forall k | 0 <= k < |bs|
      ensures Twins(Spaced(Trims(bs))[k], bs[k])
    {
      SpacedAt(Trims(bs), k);
      SpacedIsTwin(bs[k]);
    }
    TwinPieces([], Spaced(Trims(bs)), bs);
  }

  lemma TidyContents(bs: seq<seq<string>>)
    requires HeadBlocks(bs) && CleanBlocks(bs)
    ensures AllTidy(Contents(HeadPieces([], bs)), Trims(bs))
  {
    HeadPiecesShape([], bs);
    forall k | 0 <= k < |bs|
      ensures Tidy(Contents(HeadPieces([], bs))[k], Trims(bs)[k])
    {
      TrimOfHeadBlock(bs[k]);
    }
  }

  /** An empty line after the preamble's own lines leaves its section alone. */
  lemma SpacedBody(pre: seq<string>)
    requires NoHeading(pre) && CleanLines(pre) && Trim(pre) != []
    ensures NoHeading(Trim(pre) + [[]]) && Emit([], Trim(pre) + [[]]) == Emit([], pre) == Emit([], Trim(pre))
  {
    TrimOfBody(pre);
    EmptyLineNoHeading();
    var t := Trim(pre);
    StripSpec(Join(pre));
    StripStripped(Join(t));
    JoinConcat(t, [[]]);
    assert Join(t + [[]]) == [] + Join(t) + ['\n'];
    StripAround([], Join(t), ['\n']);
  }

  ghost predicate FullAndStripped(cs: seq<string>) {
    forall k :: 0 <= k < |cs| ==> cs[k] != [] && Stripped(cs[k])
  }

  lemma ContentsConcat(a: seq<Piece>, b: seq<Piece>)
    ensures Contents(a + b) == Contents(a) + Contents(b)
  {
  }

  lemma EmitContents(pre: seq<string>)
    ensures FullAndStripped(Contents(Emit([], pre)))
  {
    StripSpec(Join(pre));
  }

  lemma HeadContents(bs: seq<seq<string>>)
    requires HeadBlocks(bs)
    ensures FullAndStripped(Contents(HeadPieces([], bs)))
  {
    HeadPiecesShape([], bs);
    forall k | 0 <= k < |bs|
      ensures Stripped(HeadPieces([], bs)[k].content)
    {
      StripSpec(Join(bs[k]));
    }
  }

  lemma ContentsOfSplit(pre: seq<string>, bs: seq<seq<string>>)
    requires HeadBlocks(bs)
    ensures var cs := Contents(Emit([], pre) + HeadPieces([], bs));
            cs == Contents(Emit([], pre)) + Contents(HeadPieces([], bs)) && FullAndStripped(cs)
  {
    ContentsConcat(Emit([], pre), HeadPieces([], bs));
    EmitContents(pre);
    HeadContents(bs);
  }

  lemma RoundTripHeaded(bs: seq<seq<string>>)
    requires HeadBlocks(bs) && CleanBlocks(bs)
    ensures var ps := HeadPieces([], bs);
            Pieces([], [], SplitLines(JoinBlank(Contents(ps)))) == ps
  {
    TidyContents(bs);
    SpacedTwins(bs);
    var tail := Spaced(Trims(bs));
    SplitJoinBlank(Contents(HeadPieces([], bs)), Trims(bs));
    PiecesOfOutline([], tail);
    assert [] + Concat(tail) == Concat(tail);
    assert Emit([], []) == [];
  }

  /** The preamble's lines as they come back, and the blocks behind it. */
  lemma SplitWithPreamble(pre: seq<string>, bs: seq<seq<string>>) returns (back: seq<string>)
    requires NoHeading(pre) && CleanLines(pre) && Trim(pre) != []
    requires HeadBlocks(bs) && CleanBlocks(bs)
    ensures NoHeading(back) && Emit([], back) == Emit([], pre)
    ensures SplitLines(JoinBlank([Strip(Join(pre))] + Contents(HeadPieces([], bs)))) == back + Concat(Spaced(Trims(bs)))
  {
    TidyContents(bs);
    TrimOfBody(pre);
    SpacedBody(pre);
    var cs := [Strip(Join(pre))] + Contents(HeadPieces([], bs));
    var lss := [Trim(pre)] + Trims(bs);
    var tail := Spaced(Trims(bs));
    assert AllTidy(cs, lss);
    SplitJoinBlank(cs, lss);
    if bs == [] {
      back := Trim(pre);
      assert Spaced(lss) == [back];
      assert Concat([back]) == back + Concat([]);
    } else {
      back := Trim(pre) + [[]];
      assert lss[1..] == Trims(bs);
      assert Spaced(lss) == [back] + tail;
      assert ([back] + tail)[1..] == tail;
    }
  }

  lemma RoundTripWithPreamble(pre: seq<string>, bs: seq<seq<string>>)
    requires NoHeading(pre) && CleanLines(pre) && Trim(pre) != []
    requires HeadBlocks(bs) && CleanBlocks(bs)
    ensures Pieces([], [], SplitLines(JoinBlank([Strip(Join(pre))] + Contents(HeadPieces([], bs))))) ==
            Emit([], pre) + HeadPieces([], bs)
  {
    var back := SplitWithPreamble(pre, bs);
    SpacedTwins(bs);
    PiecesOfOutline(back, Spaced(Trims(bs)));
  }

  lemma RoundTripOutline(pre: seq<string>, bs: seq<seq<string>>)
    requires NoHeading(pre) && CleanLines(pre) && HeadBlocks(bs) && CleanBlocks(bs)
    ensures var ps := Emit([], pre) + HeadPieces([], bs);
            Pieces([], [], SplitLines(JoinBlank(Contents(ps)))) == ps
  {
    TrimOfBody(pre);
    ContentsOfSplit(pre, bs);
    if Trim(pre) == [] {
      RoundTripHeaded(bs);
      assert Emit([], pre) + HeadPieces([], bs) == HeadPieces([], bs);
    } else {
      RoundTripWithPreamble(pre, bs);
      assert Contents(Emit([], pre)) == [Strip(Join(pre))];
    }
  }

  /** Joining the contents of the sections with a blank line and splitting again gives the same
      sections: the same contents under the same heading paths. */
  lemma SplitRoundTrip(text: string)
    ensures Split(JoinBlank(Contents(Split(text)))) == Split(text)
  {
    var pre, bs := OutlineOf(text);
    var cs := Contents(Split(text));
    ContentsOfSplit(pre, bs);
    JoinBlankStripped(cs);
    StripStripped(JoinBlank(cs));
    RoundTripOutline(pre, bs);
  }

  // ---- heading paths ----

  /** The path after the headings `hs`, starting from an empty one. */
  function PathAfter(hs: seq<Heading>): seq<string>
    requires forall i :: 0 <= i < |hs| ==> 1 <= hs[i].level
  {
    if hs == [] then [] else NewPath(PathAfter(hs[..|hs| - 1]), hs[|hs| - 1])
  }

  /** The headings up to and including the `k`-th. */
  function Upto(hs: seq<Heading>, k: nat): (r: seq<Heading>)
    requires k < |hs|
    ensures |r| == k + 1 && r[k] == hs[k]
  {
    hs[..k + 1]
  }

  ghost predicate Levels(hs: seq<Heading>) {
    forall i :: 0 <= i < |hs| ==> 1 <= hs[i].level <= 6
  }

  lemma HeadedLevels(bs: seq<seq<string>>)
    requires HeadBlocks(bs)
    ensures Levels(HeadingsIn(Concat(bs))) && |HeadingsIn(Concat(bs))| == |bs|
  {
    HeadingsOfBlocks(bs);
    forall i | 0 <= i < |bs| ensures 1 <= BlockHeading(bs[i]).level <= 6 { HeadingLevels(bs[i][0]); }
  }

  lemma HeadPiecesFirst(path: seq<string>, bs: seq<seq<string>>)
    requires HeadBlocks(bs) && bs != []
    ensures var h := BlockHeading(bs[0]);
            && HeadingsIn(Concat(bs)) == [h] + HeadingsIn(Concat(bs[1..]))
            && 1 <= h.level
            && HeadPieces(path, bs) ==
               [Piece(NewPath(path, h), Strip(Join(bs[0])))] + HeadPieces(NewPath(path, h), bs[1..])
  {
    HeadingNotBlank(bs[0][0]);
    NotBlankJoin(bs[0]);
    HeadingsInConcat(bs[0], Concat(bs[1..]));
    NoHeadings(bs[0][1..]);
    assert HeadingsIn(bs[0]) == [BlockHeading(bs[0])];
  }

  lemma PathAfterNext(hs: seq<Heading>, h: Heading)
    requires Levels(hs) && 1 <= h.level <= 6
    ensures PathAfter(hs + [h]) == NewPath(PathAfter(hs), h)
  {
    assert (hs + [h])[..|hs|] == hs;
  }

  /** The path after each of the headings, starting from `path`. */
  function PathsFrom(path: seq<string>, hs: seq<Heading>): (r: seq<seq<string>>)
    requires Levels(hs)
    ensures |r| == |hs|
    decreases |hs|
  {
    if hs == [] then [] else [NewPath(path, hs[0])] + PathsFrom(NewPath(path, hs[0]), hs[1..])
  }

  lemma {:induction false} HeadPiecesPaths(path: seq<string>, bs: seq<seq<string>>)
    requires HeadBlocks(bs) && Levels(HeadingsIn(Concat(bs)))
    requires |HeadingsIn(Concat(bs))| == |bs| == |HeadPieces(path, bs)|
    ensures forall k :: 0 <= k < |bs| ==> HeadPieces(path, bs)[k].path == PathsFrom(path, HeadingsIn(Concat(bs)))[k]
    decreases |bs|
  {
    if bs != [] {
      var h, rest := BlockHeading(bs[0]), HeadingsIn(Concat(bs[1..]));
      HeadPiecesFirst(path, bs);
      HeadedLevels(bs[1..]);
      assert ([h] + rest)[1..] == rest;
      var tail := HeadPieces(NewPath(path, h), bs[1..]);
      assert HeadPieces(path, bs)[1..] == tail;
      HeadPiecesPaths(NewPath(path, h), bs[1..]);
    }
  }

  lemma {:induction false} PathsFromStart(past: seq<Heading>, hs: seq<Heading>, all: seq<Heading>, k: nat)
    requires Levels(past) && Levels(hs) && k < |hs| && all == past + hs
    ensures PathsFrom(PathAfter(past), hs)[k] == PathAfter(Upto(all, |past| + k))
    decreases |hs|
  {
    FirstOf(past, hs[0], hs[1..]);
    assert [hs[0]] + hs[1..] == hs;
    PathAfterNext(past, hs[0]);
    if k > 0 {
      PathsFromStart(past + [hs[0]], hs[1..], all, k - 1);
    }
  }

  lemma FirstOf(past: seq<Heading>, h: Heading, rest: seq<Heading>)
    ensures (past + [h]) + rest == past + ([h] + rest)
    ensures Upto(past + ([h] + rest), |past|) == past + [h]
  {
  }

  /** The sections headings open, after the preamble's if there is one. */
  function Headed(text: string): seq<Piece> {
    var ps, hs := Split(text), HeadingsIn(SplitLines(Strip(text)));
    if |hs| <= |ps| then ps[|ps| - |hs|..] else []
  }

  lemma HeadedPieces(text: string, pre: seq<string>, bs: seq<seq<string>>)
    requires Outline(text, pre, bs)
    ensures HeadingsIn(SplitLines(Strip(text))) == HeadingsIn(Concat(bs))
    ensures |HeadingsIn(Concat(bs))| == |bs| && Levels(HeadingsIn(Concat(bs)))
    ensures Headed(text) == HeadPieces([], bs) && |HeadPieces([], bs)| == |bs|
    ensures |Split(text)| == |Emit([], pre)| + |bs|
  {
    HeadPiecesShape([], bs);
    HeadingsInConcat(pre, Concat(bs));
    NoHeadings(pre);
    HeadedLevels(bs);
  }

  /** Every heading of the document opens a section and no section holds another one: the headings of
      the document, in order, are the headings of the sections' first lines. What comes before the
      first heading is at most one section, with no heading in it and an empty path. */
  lemma HeadingsOpenSections(text: string)
    ensures var hs := HeadingsIn(SplitLines(Strip(text)));
            && |hs| <= |Split(text)| <= |hs| + 1
            && (forall k :: 0 <= k < |hs| ==> OpensWith(Headed(text)[k].content, hs[k]))
            && (|Split(text)| == |hs| + 1 ==> NoHeading(SplitLines(Split(text)[0].content)) && Split(text)[0].path == [])
  {
    var pre, bs := OutlineOf(text);
    HeadedPieces(text, pre, bs);
    HeadPiecesShape([], bs);
    HeadingsOfBlocks(bs);
    forall k | 0 <= k < |bs|
      ensures OpensWith(HeadPieces([], bs)[k].content, HeadingsIn(Concat(bs))[k])
    {
      BlockOpens(bs[k]);
    }
    if Emit([], pre) != [] { PreambleQuiet(pre); }
  }

  lemma BlockOpens(b: seq<string>)
    requires HeadBlock(b) && CleanLines(b)
    ensures OpensWith(Strip(Join(b)), BlockHeading(b))
  {
    TrimOfHeadBlock(b);
    TidyOpens(Trim(b));
  }

  lemma TidyOpens(b: seq<string>)
    requires HeadBlock(b) && CleanLines(b) && b[|b| - 1] != []
    ensures OpensWith(Join(b), BlockHeading(b))
  {
    SplitJoin(b);
  }

  lemma PreambleQuiet(pre: seq<string>)
    requires NoHeading(pre) && CleanLines(pre) && Strip(Join(pre)) != []
    ensures NoHeading(SplitLines(Strip(Join(pre))))
  {
    TrimOfBody(pre);
    SplitJoin(Trim(pre));
  }

  /** The content begins with the line of heading `h` and holds no other heading. */
  ghost predicate OpensWith(content: string, h: Heading) {
    var ls := SplitLines(content);
    ls != [] && HeadingOf(ls[0]) == Some(h) && NoHeading(ls[1..])
  }

  /** A heading's section has the path the headings up to it build. */
  lemma SectionPaths(text: string)
    ensures var hs := HeadingsIn(SplitLines(Strip(text)));
            && Levels(hs)
            && |Headed(text)| == |hs|
            && forall k :: 0 <= k < |hs| ==> Headed(text)[k].path == PathAfter(Upto(hs, k))
  {
    var pre, bs := OutlineOf(text);
    HeadedPieces(text, pre, bs);
    HeadPiecesPaths([], bs);
    forall k | 0 <= k < |HeadingsIn(Concat(bs))|
      ensures PathsFrom([], HeadingsIn(Concat(bs)))[k] == PathAfter(Upto(HeadingsIn(Concat(bs)), k))
    {
      PathFromStart(HeadingsIn(Concat(bs)), k);
    }
  }

  lemma PathFromStart(hs: seq<Heading>, k: nat)
    requires Levels(hs) && k < |hs|
    ensures PathsFrom([], hs)[k] == PathAfter(Upto(hs, k))
  {
    assert [] + hs == hs;
    PathsFromStart([], hs, hs, k);
  }

  /** With no assumption on the headings, a path is never empty, never longer than its heading's level
      (at most six) and ends in that heading. */
  lemma {:induction false} PathBounds(hs: seq<Heading>)
    requires Levels(hs) && hs != []
    ensures 1 <= |PathAfter(hs)| <= hs[|hs| - 1].level <= 6
    ensures PathAfter(hs)[|PathAfter(hs)| - 1] == hs[|hs| - 1].text
  {
  }

  /** The outline starts at level one and never skips a level going down. */
  ghost predicate NoGap(hs: seq<Heading>) {
    && (hs != [] ==> hs[0].level == 1)
    && forall i :: 0 <= i < |hs| - 1 ==> hs[i + 1].level <= hs[i].level + 1
  }

  /** `i` is the latest heading of level `level` among `hs`. */
  ghost predicate Latest(hs: seq<Heading>, level: nat, i: nat) {
    && i < |hs|
    && hs[i].level == level
    && forall j :: i < j < |hs| ==> hs[j].level != level
  }

  /** Entry `j` of a path names the latest heading of level `j + 1`. */
  ghost predicate AncestorChain(hs: seq<Heading>, path: seq<string>) {
    forall j :: 0 <= j < |path| ==> NamesLatest(hs, j + 1, path[j])
  }

  ghost predicate NamesLatest(hs: seq<Heading>, level: nat, text: string) {
    exists i: nat :: Latest(hs, level, i) && text == hs[i].text
  }

  lemma LatestStays(hs: seq<Heading>, h: Heading, level: nat, i: nat)
    requires Latest(hs, level, i) && h.level != level
    ensures Latest(hs + [h], level, i) && (hs + [h])[i] == hs[i]
  {
  }

  lemma {:induction false} ChainWhenNoGap(hs: seq<Heading>)
    requires Levels(hs) && NoGap(hs)
    ensures hs != [] ==> |PathAfter(hs)| == hs[|hs| - 1].level
    ensures AncestorChain(hs, PathAfter(hs))
  {
    if hs != [] {
      var n := |hs| - 1;
      NoGapBefore(hs);
      ChainWhenNoGap(hs[..n]);
      ChainNext(hs[..n], hs[n]);
      assert hs[..n] + [hs[n]] == hs;
    }
  }

  lemma NoGapBefore(hs: seq<Heading>)
    requires Levels(hs) && NoGap(hs) && hs != []
    ensures Levels(hs[..|hs| - 1]) && NoGap(hs[..|hs| - 1])
    ensures |hs| > 1 ==> hs[|hs| - 1].level <= hs[|hs| - 2].level + 1
  {
    if |hs| > 1 { assert hs[|hs| - 2 + 1].level <= hs[|hs| - 2].level + 1; }
  }

  lemma ChainNext(before: seq<Heading>, h: Heading)
    requires Levels(before) && AncestorChain(before, PathAfter(before))
    requires 1 <= h.level <= 6 && h.level <= |PathAfter(before)| + 1
    ensures |PathAfter(before + [h])| == h.level && AncestorChain(before + [h], PathAfter(before + [h]))
  {
    PathAfterNext(before, h);
    ChainStep(before, h, PathAfter(before));
  }

  /** A heading at most one level below the path it extends. */
  lemma ChainStep(before: seq<Heading>, h: Heading, path: seq<string>)
    requires AncestorChain(before, path) && 1 <= h.level <= |path| + 1
    ensures |NewPath(path, h)| == h.level
    ensures AncestorChain(before + [h], NewPath(path, h))
  {
    var hs, longer := before + [h], NewPath(path, h);
    forall j | 0 <= j < |longer|
      ensures NamesLatest(hs, j + 1, longer[j])
    {
      if j < |longer| - 1 {
        assert longer[j] == path[j];
        assert NamesLatest(before, j + 1, path[j]);
        var i: nat :| Latest(before, j + 1, i) && path[j] == before[i].text;
        LatestStays(before, h, j + 1, i);
      } else {
        assert Latest(hs, j + 1, |before|);
      }
    }
  }

  ghost predicate FullPaths(hs: seq<Heading>)
    requires Levels(hs)
  {
    forall k :: 0 <= k < |hs| ==> |PathAfter(Upto(hs, k))| == hs[k].level
  }

  lemma NoGapPrefix(hs: seq<Heading>, k: nat)
    requires Levels(hs) && k < |hs| && NoGap(hs)
    ensures Levels(Upto(hs, k)) && NoGap(Upto(hs, k))
  {
  }

  lemma FullPathsMeanNoGap(hs: seq<Heading>)
    requires Levels(hs) && FullPaths(hs)
    ensures NoGap(hs)
  {
    if hs != [] { FirstFullPath(hs); }
    forall i | 0 <= i < |hs| - 1
      ensures hs[i + 1].level <= hs[i].level + 1
    {
      FullPathStep(hs, i);
    }
  }

  lemma FirstFullPath(hs: seq<Heading>)
    requires Levels(hs) && hs != [] && |PathAfter(Upto(hs, 0))| == hs[0].level
    ensures hs[0].level == 1
  {
    PathAfterNext([], hs[0]);
    assert Upto(hs, 0) == [] + [hs[0]];
  }

  lemma FullPathStep(hs: seq<Heading>, i: nat)
    requires Levels(hs) && i < |hs| - 1
    requires |PathAfter(Upto(hs, i))| == hs[i].level && |PathAfter(Upto(hs, i + 1))| == hs[i + 1].level
    ensures hs[i + 1].level <= hs[i].level + 1
  {
    assert Upto(hs, i + 1) == Upto(hs, i) + [hs[i + 1]];
    PathAfterNext(Upto(hs, i), hs[i + 1]);
  }

  /** Every heading's path has as many entries as its level exactly when the outline skips no level;
      and then each entry names the latest heading of its level. */
  lemma FullPathsIffNoGap(hs: seq<Heading>)
    requires Levels(hs)
    ensures FullPaths(hs) <==> NoGap(hs)
    ensures NoGap(hs) ==> forall k :: 0 <= k < |hs| ==> AncestorChain(Upto(hs, k), PathAfter(Upto(hs, k)))
  {
    if NoGap(hs) {
      forall k | 0 <= k < |hs|
        ensures |PathAfter(Upto(hs, k))| == hs[k].level && AncestorChain(Upto(hs, k), PathAfter(Upto(hs, k)))
      {
        NoGapPrefix(hs, k);
        ChainWhenNoGap(Upto(hs, k));
      }
    }
    if FullPaths(hs) { FullPathsMeanNoGap(hs); }
  }

  // ---- the paths of a document's sections ----

  /** The headings of a document, in order. */
  function Outlined(text: string): seq<Heading> { HeadingsIn(SplitLines(Strip(text))) }

  /** Whatever the outline, the section a heading opens has a path of at least one entry and at most as many as
      the heading's level, never more than six, and the path ends in the heading. */
  lemma SectionPathBounds(text: string, k: nat)
    requires k < |Outlined(text)|
    ensures |Headed(text)| == |Outlined(text)|
    ensures var path := Headed(text)[k].path;
            && 1 <= |path| <= Outlined(text)[k].level <= 6
            && path[|path| - 1] == Outlined(text)[k].text
  {
    SectionPaths(text);
    PathBounds(Upto(Outlined(text), k));
  }

  /** The sections' paths are all as long as their headings' levels exactly when the document's outline skips no
      level; and then each path is the chain of the latest headings of levels one, two and so on. */
  lemma SectionPathsAreAncestors(text: string)
    ensures |Headed(text)| == |Outlined(text)|
    ensures (forall k :: 0 <= k < |Headed(text)| ==> |Headed(text)[k].path| == Outlined(text)[k].level)
            <==> NoGap(Outlined(text))
    ensures NoGap(Outlined(text)) ==>
              forall k :: 0 <= k < |Headed(text)| ==> AncestorChain(Upto(Outlined(text), k), Headed(text)[k].path)
  {
    SectionPaths(text);
    FullPathsIffNoGap(Outlined(text));
  }
}
