/** The answer of a search, said place by place of the store and without the sort, the filter and the cut. */
module SearchAnswers {
  import opened Sequences
  import opened Sections
  import opened Cosine
  import opened VectorStores
  import opened SectionIndexes
  import opened Searches

  /** The result a stored section gives for a query vector. */
  function ResultFor(root: real -> real, vector: Vector, s: Section): SearchResult {
    ResultOf(Presented(Scored(root, vector, s)))
  }

  function ScoreAt(root: real -> real, vector: Vector, stored: seq<Section>, i: nat): real
    requires i < |stored|
  {
    Similarity(root, vector, stored[i].embedding)
  }

  /** The place `i` ranks before the place `j`: it scores more, or as much and was stored earlier. */
  predicate Before(root: real -> real, vector: Vector, stored: seq<Section>, i: nat, j: nat)
    requires i < |stored| && j < |stored|
  {
    var a, b := ScoreAt(root, vector, stored, i), ScoreAt(root, vector, stored, j);
    a > b || (a == b && i < j)
  }

  ghost predicate Places(stored: seq<Section>, p: seq<nat>) {
    forall k :: 0 <= k < |p| ==> p[k] < |stored|
  }

  ghost predicate Ranked(root: real -> real, vector: Vector, stored: seq<Section>, p: seq<nat>)
    requires Places(stored, p)
  {
    forall k, l :: 0 <= k < l < |p| ==> Before(root, vector, stored, p[k], p[l])
  }

  ghost predicate Complete(stored: seq<Section>, p: seq<nat>) {
    forall i: nat :: i < |stored| ==> i in p
  }

  // ---- the sort by places ----

  /** `s` belongs at place `m`: behind all that score at least as much, before all that score less. */
  ghost predicate BelongsAt(sorted: seq<Section>, s: Section, m: nat) {
    && m <= |sorted| && InsertScored(sorted, s) == sorted[..m] + [s] + sorted[m..]
    && forall k :: 0 <= k < |sorted| ==> (ScoreOf(sorted[k]) >= ScoreOf(s) <==> k < m)
  }

  lemma {:induction false} InsertAt(sorted: seq<Section>, s: Section) returns (m: nat)
    requires Descending(sorted)
    ensures BelongsAt(sorted, s, m)
  {
    if sorted == [] || ScoreOf(sorted[|sorted| - 1]) >= ScoreOf(s) {
      m := |sorted|;
    } else {
      m := InsertAt(sorted[..|sorted| - 1], s);
      BelongsBefore(sorted[..|sorted| - 1], sorted[|sorted| - 1], s, m);
      assert sorted == sorted[..|sorted| - 1] + [sorted[|sorted| - 1]];
    }
  }

  lemma BelongsBefore(sorted: seq<Section>, last: Section, s: Section, m: nat)
    requires BelongsAt(sorted, s, m) && ScoreOf(last) < ScoreOf(s)
    ensures BelongsAt(sorted + [last], s, m)
  {
    assert (sorted + [last])[..|sorted|] == sorted;
    assert (sorted + [last])[..m] == sorted[..m] && (sorted + [last])[m..] == sorted[m..] + [last];
  }

  ghost predicate Lists(root: real -> real, vector: Vector, stored: seq<Section>, p: seq<nat>, ss: seq<Section>) {
    && Places(stored, p)
    && |p| == |ss|
    && forall k :: 0 <= k < |p| ==> ss[k] == Scored(root, vector, stored[p[k]])
  }

  lemma PutPlace(root: real -> real, vector: Vector, stored: seq<Section>, s: Section, p: seq<nat>, ss: seq<Section>)
    returns (p': seq<nat>)
    requires Lists(root, vector, stored, p, ss) && Ranked(root, vector, stored, p) && Complete(stored, p) && Descending(ss)
    ensures Lists(root, vector, stored + [s], p', InsertScored(ss, Scored(root, vector, s)))
    ensures Ranked(root, vector, stored + [s], p') && Complete(stored + [s], p')
  {
    var m := InsertAt(ss, Scored(root, vector, s));
    p' := p[..m] + [|stored|] + p[m..];
    PutLists(root, vector, stored, s, p, ss, m);
    PutRanked(root, vector, stored, s, p, ss, m);
    PutComplete(stored, s, p, m);
  }

  lemma PutLists(root: real -> real, vector: Vector, stored: seq<Section>, s: Section, p: seq<nat>, ss: seq<Section>, m: nat)
    requires Lists(root, vector, stored, p, ss) && m <= |p|
    ensures Lists(root, vector, stored + [s], p[..m] + [|stored|] + p[m..], ss[..m] + [Scored(root, vector, s)] + ss[m..])
  {
  }

  lemma PutRanked(root: real -> real, vector: Vector, stored: seq<Section>, s: Section, p: seq<nat>, ss: seq<Section>, m: nat)
    requires Lists(root, vector, stored, p, ss) && Ranked(root, vector, stored, p) && m <= |p|
    requires forall j :: 0 <= j < |ss| ==> (ScoreOf(ss[j]) >= ScoreOf(Scored(root, vector, s)) <==> j < m)
    ensures Places(stored + [s], p[..m] + [|stored|] + p[m..])
    ensures Ranked(root, vector, stored + [s], p[..m] + [|stored|] + p[m..])
  {
    var p' := p[..m] + [|stored|] + p[m..];
    forall k, l | 0 <= k < l < |p'|
      ensures p'[k] <= |stored| && p'[l] <= |stored| && Before(root, vector, stored + [s], p'[k], p'[l])
    {
      PlacedBefore(root, vector, stored, s, p, ss, m, k, l);
    }
  }

  lemma PutComplete(stored: seq<Section>, s: Section, p: seq<nat>, m: nat)
    requires Complete(stored, p) && m <= |p|
    ensures Complete(stored + [s], p[..m] + [|stored|] + p[m..])
  {
    forall i: nat | i < |stored + [s]|
      ensures i in p[..m] + [|stored|] + p[m..]
    {
      if i < |stored| {
        assert i in p;
        assert p == p[..m] + p[m..];
      }
    }
  }

  lemma PlacedBefore(root: real -> real, vector: Vector, stored: seq<Section>, s: Section, p: seq<nat>, ss: seq<Section>,
                     m: nat, k: nat, l: nat)
    requires Lists(root, vector, stored, p, ss) && Ranked(root, vector, stored, p) && m <= |p| && k < l <= |p|
    requires forall j :: 0 <= j < |ss| ==> (ScoreOf(ss[j]) >= ScoreOf(Scored(root, vector, s)) <==> j < m)
    ensures var p' := p[..m] + [|stored|] + p[m..];
            p'[k] <= |stored| && p'[l] <= |stored| && Before(root, vector, stored + [s], p'[k], p'[l])
  {
    if k != m && l != m {
      var k0, l0 := if k < m then k else k - 1, if l < m then l else l - 1;
      assert Before(root, vector, stored, p[k0], p[l0]);
    } else if k == m {
      assert ScoreOf(ss[l - 1]) < ScoreOf(Scored(root, vector, s));
    } else {
      assert ScoreOf(ss[k]) >= ScoreOf(Scored(root, vector, s));
    }
  }

  lemma {:induction false} SortPlaces(root: real -> real, vector: Vector, stored: seq<Section>) returns (p: seq<nat>)
    ensures Lists(root, vector, stored, p, SortByScore(ScoreAll(root, vector, None, stored)))
    ensures Ranked(root, vector, stored, p) && Complete(stored, p)
  {
    if stored == [] {
      p := [];
    } else {
      var n := |stored| - 1;
      var p0 := SortPlaces(root, vector, stored[..n]);
      SortSpec(ScoreAll(root, vector, None, stored[..n]));
      ScoredNext(root, vector, stored);
      p := PutPlace(root, vector, stored[..n], stored[n], p0, SortByScore(ScoreAll(root, vector, None, stored[..n])));
      assert stored == stored[..n] + [stored[n]];
    }
  }

  lemma ScoredNext(root: real -> real, vector: Vector, stored: seq<Section>)
    requires stored != []
    ensures var n := |stored| - 1;
            SortByScore(ScoreAll(root, vector, None, stored))
            == InsertScored(SortByScore(ScoreAll(root, vector, None, stored[..n])), Scored(root, vector, stored[n]))
  {
    var n := |stored| - 1;
    var before := ScoreAll(root, vector, None, stored[..n]);
    assert (before + [Scored(root, vector, stored[n])])[..|before|] == before;
  }

  // ---- the answer ----

  /** The score is enough; a threshold of zero asks for nothing, not even for a score that is not negative. */
  predicate Enough(threshold: real, score: real) { threshold == 0.0 || score >= threshold }

  /** `rs` are the results of the places `p` of the store: at most `topK`, each with enough score, best first and
      of equal ones the earlier first; and a place that has enough score and is not among them ranks behind all
      of them, which are `topK` already. */
  ghost predicate IsAnswer(root: real -> real, vector: Vector, threshold: real, topK: nat, stored: seq<Section>,
                           p: seq<nat>, rs: seq<SearchResult>)
  {
    && Places(stored, p)
    && |rs| == |p| <= topK
    && (forall k :: 0 <= k < |p| ==> rs[k] == ResultFor(root, vector, stored[p[k]]))
    && (forall k :: 0 <= k < |p| ==> Enough(threshold, ScoreAt(root, vector, stored, p[k])))
    && Ranked(root, vector, stored, p)
    && forall i: nat :: i < |stored| && Enough(threshold, ScoreAt(root, vector, stored, i)) && i !in p ==>
         |p| == topK && forall k :: 0 <= k < |p| ==> Before(root, vector, stored, p[k], i)
  }

  lemma PassesAt(root: real -> real, vector: Vector, threshold: real, s: Section)
    ensures Passes(threshold)(Presented(Scored(root, vector, s)))
            <==> Enough(threshold, Similarity(root, vector, s.embedding))
  {
  }

  lemma PlaceLeftOut(root: real -> real, vector: Vector, stored: seq<Section>, p: seq<nat>, n: nat, i: nat) returns (j: nat)
    requires Places(stored, p) && Ranked(root, vector, stored, p) && Complete(stored, p) && n <= |p|
    requires i < |stored| && i !in p[..n]
    ensures n <= j < |p| && p[j] == i
    ensures forall k :: 0 <= k < n ==> Before(root, vector, stored, p[k], i)
  {
    assert i in p;
    j :| 0 <= j < |p| && p[j] == i;
    forall k | 0 <= k < n
      ensures p[k] != i
    {
      assert p[..n][k] in p[..n];
    }
  }

  /** The first places of the whole ranking, up to where the scores are no longer enough. */
  lemma CutIsAnswer(root: real -> real, vector: Vector, threshold: real, topK: nat, stored: seq<Section>,
                    all: seq<nat>, m: nat, n: nat, rs: seq<SearchResult>)
    requires Places(stored, all) && Ranked(root, vector, stored, all) && Complete(stored, all)
    requires n <= m <= |all| && n == (if m <= topK then m else topK) && |rs| == n
    requires forall k :: 0 <= k < |all| ==> (k < m <==> Enough(threshold, ScoreAt(root, vector, stored, all[k])))
    requires forall k :: 0 <= k < n ==> rs[k] == ResultFor(root, vector, stored[all[k]])
    ensures IsAnswer(root, vector, threshold, topK, stored, all[..n], rs)
  {
    forall i: nat | i < |stored| && Enough(threshold, ScoreAt(root, vector, stored, i)) && i !in all[..n]
      ensures n == topK && forall k :: 0 <= k < n ==> Before(root, vector, stored, all[k], i)
    {
      var j := PlaceLeftOut(root, vector, stored, all, n, i);
    }
  }

  /** The search answers with exactly these results. */
  lemma SearchAnswer(root: real -> real, vector: Vector, threshold: real, topK: nat, stored: seq<Section>) returns (p: seq<nat>)
    ensures IsAnswer(root, vector, threshold, topK, stored, p, BestAboveThreshold(root, vector, threshold, topK, stored))
  {
    var sorted := SortByScore(ScoreAll(root, vector, None, stored));
    var all := SortPlaces(root, vector, stored);
    SortSpec(ScoreAll(root, vector, None, stored));
    var m := CutAt(root, vector, threshold, topK, stored, sorted, all);
    p := all[..if m <= topK then m else topK];
    CutIsAnswer(root, vector, threshold, topK, stored, all, m, |p|, BestAboveThreshold(root, vector, threshold, topK, stored));
  }

  lemma CutAt(root: real -> real, vector: Vector, threshold: real, topK: nat, stored: seq<Section>,
              sorted: seq<Section>, all: seq<nat>) returns (m: nat)
    requires Lists(root, vector, stored, all, sorted) && Descending(sorted)
    ensures m <= |all| && forall k :: 0 <= k < |all| ==> (k < m <==> Enough(threshold, ScoreAt(root, vector, stored, all[k])))
    ensures var rs := Take(ResultsOf(Filter(PresentedAll(sorted), Passes(threshold))), topK);
            && |rs| == (if m <= topK then m else topK)
            && forall k :: 0 <= k < |rs| ==> rs[k] == ResultFor(root, vector, stored[all[k]])
  {
    PresentedDescends(sorted, 0);
    m := PassingIsPrefix(PresentedAll(sorted), threshold);
    ResultsOfPlaces(root, vector, stored, sorted, all, m);
    forall k | 0 <= k < |all|
      ensures k < m <==> Enough(threshold, ScoreAt(root, vector, stored, all[k]))
    {
      PassesAt(root, vector, threshold, stored[all[k]]);
      assert PresentedAll(sorted)[k] == Presented(Scored(root, vector, stored[all[k]]));
    }
  }

  lemma ResultsOfPlaces(root: real -> real, vector: Vector, stored: seq<Section>, sorted: seq<Section>, all: seq<nat>, m: nat)
    requires Lists(root, vector, stored, all, sorted) && m <= |all|
    ensures var rs := ResultsOf(PresentedAll(sorted)[..m]);
            |rs| == m && forall k :: 0 <= k < m ==> rs[k] == ResultFor(root, vector, stored[all[k]])
  {
    ResultsAt(PresentedAll(sorted)[..m]);
  }

  /** Every result stands for one stored section. */
  lemma ResultsComeFromTheStore(root: real -> real, vector: Vector, threshold: real, topK: nat, stored: seq<Section>, r: SearchResult)
    requires r in BestAboveThreshold(root, vector, threshold, topK, stored)
    ensures exists i :: 0 <= i < |stored| && r == ResultFor(root, vector, stored[i])
  {
    var p := SearchAnswer(root, vector, threshold, topK, stored);
    var rs := BestAboveThreshold(root, vector, threshold, topK, stored);
    var k :| 0 <= k < |rs| && rs[k] == r;
    assert r == ResultFor(root, vector, stored[p[k]]);
  }

  // ---- what a result shows ----

  lemma ResultFields(root: real -> real, vector: Vector, s: Section)
    requires s.id != "" && s.content != ""
    ensures var r := ResultFor(root, vector, s);
            && r.sectionId == s.id && r.documentId == s.docId && r.content == s.content
            && r.score == Similarity(root, vector, s.embedding)
  {
  }

  /** A section put into the index with an identifier and a content is shown with each of its own fields, the score
      of its own vector and the name its metadata gives the document. */
  lemma IndexedIsShown(root: real -> real, vector: Vector, z: Section)
    requires z.id != "" && z.content != ""
    ensures var r := ResultFor(root, vector, Enriched(z));
            && r.sectionId == z.id && r.documentId == z.docId && r.caption == z.caption && r.content == z.content
            && r.headingPath == z.headingPath && r.markdownUri == z.markdownUri && r.sourceUri == z.sourceUri
            && r.score == Similarity(root, vector, z.embedding)
    ensures TextAt(z.metadata, "file_name") != "" ==>
              ResultFor(root, vector, Enriched(z)).documentName == TextAt(z.metadata, "file_name")
    ensures TextAt(z.metadata, "file_name") == TextAt(z.metadata, "document_name") == "" ==>
              ResultFor(root, vector, Enriched(z)).documentName == z.docId
  {
    var score := Similarity(root, vector, z.embedding);
    assert Scored(root, vector, Enriched(z)) == Enriched(z).(metadata := Enriched(z).metadata["score" := ScoreMeta(score)]);
    IndexedComesBack(z, score);
    NamesKept(z, score);
  }

  lemma NamesKept(z: Section, score: real)
    ensures var m := Enriched(z).metadata["score" := ScoreMeta(score)];
            && TextAt(m, "file_name") == TextAt(z.metadata, "file_name")
            && TextAt(m, "document_name") == TextAt(z.metadata, "document_name")
  {
    assert "document_name"[0] != "section_order"[0] && "document_name"[0] != "source_s3_uri"[0];
  }
}
