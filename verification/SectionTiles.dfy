/** The sections of a document, laid next to each other, are the document; and how each path follows from the one
    before it. */
module SectionTiles {
  import opened Sequences
  import opened Texts
  import opened HeadingSplitter
  import opened SplitterTheorems

  /** The texts `cs` are cut out of `t` one after the other, and only white space is left over. */
  ghost predicate Tiles(t: string, cs: seq<string>)
    decreases |cs|
  {
    if cs == [] then Blank(t)
    else exists i: nat :: TileAt(t, cs[0], i) && Tiles(t[i + |cs[0]|..], cs[1..])
  }

  predicate TileAt(t: string, c: string, i: nat) {
    i + |c| <= |t| && Blank(t[..i]) && t[i..i + |c|] == c
  }

  lemma TilesAfterBlank(b: string, t: string, cs: seq<string>)
    requires Blank(b) && Tiles(t, cs)
    ensures Tiles(b + t, cs)
  {
    if cs != [] {
      var i: nat :| TileAt(t, cs[0], i) && Tiles(t[i + |cs[0]|..], cs[1..]);
      assert (b + t)[..|b| + i] == b + t[..i];
      assert (b + t)[|b| + i..|b| + i + |cs[0]|] == t[i..i + |cs[0]|];
      assert (b + t)[|b| + i + |cs[0]|..] == t[i + |cs[0]|..];
      assert TileAt(b + t, cs[0], |b| + i);
    }
  }

  lemma TileFirst(a: string, c: string, b: string, cs: seq<string>)
    requires Blank(a) && Tiles(b, cs)
    ensures Tiles(a + c + b, [c] + cs)
  {
    var t := a + c + b;
    assert t[..|a|] == a && t[|a|..|a| + |c|] == c && t[|a| + |c|..] == b;
    assert TileAt(t, c, |a|);
    assert ([c] + cs)[0] == c && ([c] + cs)[1..] == cs;
  }

  lemma PartsAround(t: string, c: string) returns (a: string, b: string)
    requires exists i :: 0 <= i <= |t| - |c| && Blank(t[..i]) && t[i..i + |c|] == c && Blank(t[i + |c|..])
    ensures t == a + c + b && Blank(a) && Blank(b)
  {
    var i :| 0 <= i <= |t| - |c| && Blank(t[..i]) && t[i..i + |c|] == c && Blank(t[i + |c|..]);
    a, b := t[..i], t[i + |c|..];
  }

  lemma StripParts(t: string) returns (a: string, b: string)
    ensures t == a + Strip(t) + b && Blank(a) && Blank(b)
  {
    StripSpec(t);
    a, b := PartsAround(t, Strip(t));
  }

  lemma TilesAround(a: string, c: string, b: string, gap: string, t: string, cs: seq<string>)
    requires Blank(a) && Blank(b) && Blank(gap) && Tiles(t, cs)
    ensures Tiles(a + c + b + gap + t, if c == [] then cs else [c] + cs)
  {
    TilesAfterBlank(b + gap, t, cs);
    if c == [] {
      TilesAfterBlank(a, (b + gap) + t, cs);
      assert a + c + b + gap + t == a + ((b + gap) + t);
    } else {
      TileFirst(a, c, (b + gap) + t, cs);
      assert a + c + b + gap + t == a + c + ((b + gap) + t);
    }
  }

  /** A block's stripped text and what follows it. */
  lemma TilesAfterBlock(block: string, gap: string, t: string, cs: seq<string>)
    requires Blank(gap) && Tiles(t, cs)
    ensures Tiles(block + gap + t, if Strip(block) == [] then cs else [Strip(block)] + cs)
  {
    var a, b := StripParts(block);
    TilesAround(a, Strip(block), b, gap, t, cs);
  }

  lemma JoinedTiles(block: seq<string>, rest: seq<string>, cs: seq<string>)
    requires rest != [] && Tiles(Join(rest), cs)
    ensures Tiles(Join(block + rest), if Strip(Join(block)) == [] then cs else [Strip(Join(block))] + cs)
  {
    if block == [] {
      assert block + rest == rest;
    } else {
      JoinConcat(block, rest);
      TilesAfterBlock(Join(block), ['\n'], Join(rest), cs);
    }
  }

  lemma {:induction false} PiecesTile(path: seq<string>, block: seq<string>, lines: seq<string>)
    ensures Tiles(Join(block + lines), Contents(Pieces(path, block, lines)))
    decreases |lines|
  {
    PiecesNextIfAny(path, block, lines);
    if lines == [] {
      assert block + lines == block && Tiles([], []);
      TilesAfterBlock(Join(block), [], [], []);
      assert Join(block) + [] + [] == Join(block);
    } else if HeadingOf(lines[0]).Some? {
      var h := HeadingOf(lines[0]).value;
      PiecesTile(NewPath(path, h), [lines[0]], lines[1..]);
      assert [lines[0]] + lines[1..] == lines;
      JoinedTiles(block, lines, Contents(Pieces(NewPath(path, h), [lines[0]], lines[1..])));
      EmitThen(path, block, Pieces(NewPath(path, h), [lines[0]], lines[1..]));
    } else {
      PiecesTile(path, block + [lines[0]], lines[1..]);
      assert block + [lines[0]] + lines[1..] == block + lines;
    }
  }

  lemma PiecesNextIfAny(path: seq<string>, block: seq<string>, lines: seq<string>)
    ensures lines == [] ==> Contents(Pieces(path, block, lines)) == if Strip(Join(block)) == [] then [] else [Strip(Join(block))]
  {
  }

  lemma EmitThen(path: seq<string>, block: seq<string>, ps: seq<Piece>)
    ensures Contents(Emit(path, block) + ps)
            == if Strip(Join(block)) == [] then Contents(ps) else [Strip(Join(block))] + Contents(ps)
  {
  }

  // ---- the text itself ----

  /** The text has no line boundary but the newline. */
  predicate PlainBreaks(t: string) {
    forall i :: 0 <= i < |t| && IsBoundary(t[i]) ==> t[i] == '\n'
  }

  lemma {:induction false} JoinOfSplit(t: string)
    requires PlainBreaks(t) && (t == [] || t[|t| - 1] != '\n')
    ensures Join(SplitLines(t)) == t
    decreases |t|
  {
    var n := LineLength(t);
    if n < |t| {
      var l, rest := t[..n], t[n + 1..];
      assert t[n] == '\n' && t == l + ['\n'] + rest;
      JoinOfSplit(rest);
      LineEnds(l, '\n', rest);
      JoinFirst(l, SplitLines(rest));
    } else if t != [] {
      assert SplitLines(t) == [t];
    }
  }

  lemma JoinFirst(l: string, ls: seq<string>)
    requires ls != []
    ensures Join([l] + ls) == l + ['\n'] + Join(ls)
  {
    assert ([l] + ls)[1..] == ls;
  }

  /** Whatever the document, its sections' contents are cut out of it in order, line breaks read as newlines, and only
      white space is left out; and if it has no other line breaks, out of the very text. */
  lemma ContentsTileTheText(text: string)
    ensures Tiles(Join(SplitLines(Strip(text))), Contents(Split(text)))
    ensures PlainBreaks(Strip(text)) ==> Tiles(Strip(text), Contents(Split(text)))
  {
    PiecesTile([], [], SplitLines(Strip(text)));
    assert [] + SplitLines(Strip(text)) == SplitLines(Strip(text));
    StripSpec(text);
    if PlainBreaks(Strip(text)) { JoinOfSplit(Strip(text)); }
  }

  // ---- from path to path ----

  lemma PathsStep(hs: seq<Heading>, k: nat)
    requires Levels(hs) && k < |hs|
    ensures var before := if k == 0 then [] else PathAfter(Upto(hs, k - 1));
            PathAfter(Upto(hs, k)) == Take(before, hs[k].level - 1) + [hs[k].text]
  {
    if k == 0 {
      assert Upto(hs, 0) == [] + [hs[0]];
      PathAfterNext([], hs[0]);
    } else {
      assert Upto(hs, k) == Upto(hs, k - 1) + [hs[k]];
      PathAfterNext(Upto(hs, k - 1), hs[k]);
    }
  }

  /** The first heading's section has the heading as its path; and the next one's path is the part of the path before
      it that its level leaves, and the heading. So whatever levels are skipped, the paths are known. */
  lemma PathsFollow(text: string, k: nat)
    requires k < |Outlined(text)|
    ensures |Headed(text)| == |Outlined(text)|
    ensures var h, before := Outlined(text)[k], if k == 0 then [] else Headed(text)[k - 1].path;
            1 <= h.level && Headed(text)[k].path == Take(before, h.level - 1) + [h.text]
  {
    SectionPaths(text);
    PathsStep(Outlined(text), k);
  }
}
