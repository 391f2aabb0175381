/** The section splitter of app/infrastructure/sectioning/heading_splitter.py. */
module HeadingSplitter {
  import opened Sequences
  import opened Texts

  datatype Heading = Heading(level: nat, text: string)

  function HashRun(l: string): (n: nat)
    ensures n <= |l|
  {
    if l == [] || l[0] != '#' then 0 else 1 + HashRun(l[1..])
  }

  /** `_HEADING_RE.match(line.strip())`, group by group. */
  function HeadingOf(line: string): Option<Heading> {
    var l := Strip(line);
    var n := HashRun(l);
    if 1 <= n <= 6 && n < |l| && IsSpace(l[n]) then Some(Heading(n, LStrip(l[n..]))) else None
  }

  /** A section: its heading path and its content. */
  datatype Piece = Piece(path: seq<string>, content: string)

  /** `current_path[: level - 1] + [heading]`. */
  function NewPath(path: seq<string>, h: Heading): (r: seq<string>)
    requires 1 <= h.level
  {
    (if h.level - 1 <= |path| then path[..h.level - 1] else path) + [h.text]
  }

  lemma HeadingLevels(line: string)
    ensures HeadingOf(line).Some? ==> 1 <= HeadingOf(line).value.level <= 6
  {
  }

  /** `flush()`: a block with nothing but white space gives no section. */
  function Emit(path: seq<string>, block: seq<string>): seq<Piece> {
    var content := Strip(Join(block));
    if content == [] then [] else [Piece(path, content)]
  }

  /** The sections of the lines still to read, after the lines of the open block. */
  function Pieces(path: seq<string>, block: seq<string>, lines: seq<string>): seq<Piece>
    decreases |lines|
  {
    if lines == [] then Emit(path, block)
    else
      match HeadingOf(lines[0])
      case Some(h) => Emit(path, block) + Pieces(NewPath(path, h), [lines[0]], lines[1..])
      case None => Pieces(path, block + [lines[0]], lines[1..])
  }

  /** What `split` cuts a document into. */
  function Split(text: string): seq<Piece> {
    Pieces([], [], SplitLines(Strip(text)))
  }

  lemma PiecesNext(path: seq<string>, block: seq<string>, lines: seq<string>)
    requires lines != []
    ensures Pieces(path, block, lines) ==
            match HeadingOf(lines[0])
            case Some(h) => Emit(path, block) + Pieces(NewPath(path, h), [lines[0]], lines[1..])
            case None => Pieces(path, block + [lines[0]], lines[1..])
  {
  }

  /** The local `flush()`. */
  method Flush(sections: seq<Piece>, currentPath: seq<string>, currentLines: seq<string>) returns (r: seq<Piece>)
    ensures r == sections + Emit(currentPath, currentLines)
  {
    r := sections;
    var content := Strip(Join(currentLines));
    if content != [] {
      r := r + [Piece(currentPath, content)];
    }
  }

  /** `_split_markdown`. */
  method SplitMarkdown(text: string) returns (sections: seq<Piece>)
    ensures sections == Pieces([], [], SplitLines(text))
  {
    sections := [];
    var currentPath: seq<string> := [];
    var currentLines: seq<string> := [];
    var lines := SplitLines(text);
    for i := 0 to |lines|
      invariant sections + Pieces(currentPath, currentLines, lines[i..]) == Pieces([], [], lines)
    {
      var line := lines[i];
      ghost var rest := lines[i..];
      assert rest[0] == line && rest[1..] == lines[i + 1..];
      PiecesNext(currentPath, currentLines, rest);
      var heading := HeadingOf(line);
      match heading {
        case Some(h) =>
          ghost var before, emitted := sections, Emit(currentPath, currentLines);
          HeadingLevels(line);
          sections := Flush(sections, currentPath, currentLines);
          currentPath := NewPath(currentPath, h);
          currentLines := [line];
          Regroup3(before, emitted, Pieces(currentPath, currentLines, lines[i + 1..]));
        case None =>
          currentLines := currentLines + [line];
      }
    }
    assert lines[|lines|..] == [];
    sections := Flush(sections, currentPath, currentLines);
  }

  lemma Regroup3<T>(a: seq<T>, b: seq<T>, c: seq<T>)
    ensures a + (b + c) == (a + b) + c
  {
  }

  // ---- the pattern, declaratively ----

  predicate Hashes(t: string) {
    forall i :: 0 <= i < |t| ==> t[i] == '#'
  }

  /** `^(#{1,6})\s+(.*\S)\s*$` on a stripped line; `.` is any character but a newline. */
  ghost predicate Matches(l: string, h: Heading) {
    && 1 <= h.level <= 6
    && exists gap: string ::
         && gap != [] && Blank(gap)
         && h.text != [] && Stripped(h.text) && '\n' !in h.text
         && l == seq(h.level, _ => '#') + gap + h.text
  }

  lemma {:induction false} HashRunSpec(l: string)
    ensures Hashes(l[..HashRun(l)])
    ensures HashRun(l) < |l| ==> l[HashRun(l)] != '#'
  {
    if l != [] && l[0] == '#' {
      HashRunSpec(l[1..]);
      assert l[..HashRun(l)] == [l[0]] + l[1..][..HashRun(l) - 1];
    }
  }

  lemma {:induction false} HashRunOf(n: nat, rest: string)
    requires rest == [] || rest[0] != '#'
    ensures HashRun(seq(n, _ => '#') + rest) == n
  {
    var t := seq(n, _ => '#') + rest;
    if n > 0 {
      assert t[1..] == seq(n - 1, _ => '#') + rest;
      HashRunOf(n - 1, rest);
    } else {
      assert t == rest;
    }
  }

  lemma HeadingMatches(line: string, h: Heading)
    requires HeadingOf(line) == Some(h) && '\n' !in h.text
    ensures Matches(Strip(line), h)
  {
    var l := Strip(line);
    StripSpec(line);
    var n := HashRun(l);
    HashRunSpec(l);
    var gap := GapBefore(l[n..]);
    Assemble(l, n, gap, h.text);
  }

  /** What follows the hashes: some white space, then a text without any at its ends. */
  lemma GapBefore(rest: string) returns (gap: string)
    requires rest != [] && IsSpace(rest[0]) && !IsSpace(rest[|rest| - 1])
    ensures gap != [] && Blank(gap) && rest == gap + LStrip(rest)
    ensures LStrip(rest) != [] && Stripped(LStrip(rest))
  {
    LStripSpec(rest);
    var text := LStrip(rest);
    gap := rest[..|rest| - |text|];
    assert text != [] by { assert text == [] ==> gap == rest; }
    assert text[|text| - 1] == rest[|rest| - 1];
    assert gap != [] by { assert gap == [] ==> text == rest; }
  }

  lemma Assemble(l: string, n: nat, gap: string, text: string)
    requires n <= |l| && Hashes(l[..n]) && l[n..] == gap + text
    ensures l == seq(n, _ => '#') + gap + text
  {
    var hashes := seq(n, _ => '#');
    assert hashes == l[..n] by {
      assert forall i :: 0 <= i < n ==> hashes[i] == l[..n][i];
    }
    assert l == l[..n] + l[n..];
  }

  lemma MatchIsHeading(line: string, h: Heading)
    requires Matches(Strip(line), h)
    ensures HeadingOf(line) == Some(h)
  {
    var l := Strip(line);
    var gap :| gap != [] && Blank(gap) && h.text != [] && Stripped(h.text) && l == seq(h.level, _ => '#') + gap + h.text;
    var tail := gap + h.text;
    assert IsSpace(gap[0]) && tail[0] == gap[0];
    HashRunOf(h.level, tail);
    assert l == seq(h.level, _ => '#') + tail;
    assert l[h.level..] == tail && l[h.level] == tail[0];
    LStripAfterBlank(gap, h.text);
  }

  lemma NoNewlineInHeading(line: string, h: Heading)
    requires CleanLine(line) && HeadingOf(line) == Some(h)
    ensures '\n' !in h.text
  {
    StripSpec(line);
    var l := Strip(line);
    LStripSpec(l[HashRun(l)..]);
  }

  /** The hand-written matcher accepts exactly what the pattern accepts, with the same groups, on every line
      `splitlines` can give; on other texts it differs only where a newline would have to be crossed. */
  lemma HeadingIsThePattern(line: string, h: Heading)
    ensures Matches(Strip(line), h) <==> HeadingOf(line) == Some(h) && '\n' !in h.text
    ensures CleanLine(line) ==> (HeadingOf(line) == Some(h) <==> Matches(Strip(line), h))
  {
    if HeadingOf(line) == Some(h) && '\n' !in h.text { HeadingMatches(line, h); }
    if Matches(Strip(line), h) { MatchIsHeading(line, h); }
    if CleanLine(line) && HeadingOf(line) == Some(h) { NoNewlineInHeading(line, h); }
  }
}
