/** `SearchSections` of app/application/search/search_sections.py. */
module Searches {
  import opened Sequences
  import opened OrderedDicts
  import opened Sections
  import opened VectorStores
  import opened SectionIndexes
  import QueryCaches

  datatype SearchResult = SearchResult(
    sectionId: string,
    documentId: string,
    documentName: string,
    caption: string,
    content: string,
    markdownUri: Option<string>,
    sourceUri: Option<string>,
    score: real,
    headingPath: seq<string>)

  function ResultOf(s: Section): SearchResult {
    SearchResult(
      s.id, s.docId,
      OrText(OrText(TextAt(s.metadata, "file_name"), TextAt(s.metadata, "document_name")), s.docId),
      s.caption, s.content, s.markdownUri, s.sourceUri, ScoreOf(s), s.headingPath)
  }

  function ResultsOf(ss: seq<Section>): seq<SearchResult> {
    if ss == [] then [] else ResultsOf(ss[..|ss| - 1]) + [ResultOf(ss[|ss| - 1])]
  }

  /** A threshold of zero switches the filter off. */
  function Passes(threshold: real): Section -> bool {
    (s: Section) => threshold == 0.0 || ScoreOf(s) >= threshold
  }

  function FetchCount(topK: nat, threshold: real): nat {
    if threshold > 0.0 then topK * 3 else topK
  }

  /** The specification: of everything stored, best score first and ties in storage order, the first
      `topK` that pass the threshold. */
  function BestAboveThreshold(root: real -> real, vector: Vector, threshold: real, topK: nat, stored: seq<Section>): seq<SearchResult> {
    Take(ResultsOf(Filter(PresentedAll(SortByScore(ScoreAll(root, vector, None, stored))), Passes(threshold))), topK)
  }

  lemma {:induction false} ResultsOfConcat(a: seq<Section>, b: seq<Section>)
    ensures ResultsOf(a + b) == ResultsOf(a) + ResultsOf(b)
  {
    if b == [] {
      assert a + b == a;
    } else {
      assert (a + b)[..|a + b| - 1] == a + b[..|b| - 1];
      ResultsOfConcat(a, b[..|b| - 1]);
    }
  }

  lemma {:induction false} ResultsOfPrefix(ss: seq<Section>, n: nat)
    requires n <= |ss|
    ensures |ResultsOf(ss)| == |ss|
    ensures ResultsOf(ss[..n]) == ResultsOf(ss)[..n]
  {
    if ss != [] {
      var m := |ss| - 1;
      ResultsOfPrefix(ss[..m], if n <= m then n else m);
      if n <= m {
        assert ss[..m][..n] == ss[..n];
      } else {
        assert ss[..n] == ss;
      }
    }
  }

  /** What passes the threshold in a descending list is one of its prefixes. */
  lemma {:induction false} PassingIsPrefix(ss: seq<Section>, threshold: real) returns (m: nat)
    requires Descending(ss)
    ensures m <= |ss| && Filter(ss, Passes(threshold)) == ss[..m]
    ensures forall i :: 0 <= i < |ss| ==> (Passes(threshold)(ss[i]) <==> i < m)
  {
    var p := Passes(threshold);
    if ss == [] {
      m := 0;
    } else if p(ss[0]) {
      var m1 := PassingIsPrefix(ss[1..], threshold);
      m := m1 + 1;
      assert ss[..m] == [ss[0]] + ss[1..][..m1];
    } else {
      m := 0;
      FilterNone(ss, p);
    }
  }

  lemma {:induction false} FilterAfterCut(ss: seq<Section>, threshold: real, k: nat)
    requires Descending(ss)
    ensures Filter(Take(ss, k), Passes(threshold)) == Take(Filter(ss, Passes(threshold)), k)
  {
    var p := Passes(threshold);
    if ss == [] || k == 0 {
      assert Take(ss, k) == [];
    } else if p(ss[0]) {
      FilterAfterCut(ss[1..], threshold, k - 1);
      assert Take(ss, k) == [ss[0]] + Take(ss[1..], k - 1);
    } else {
      FilterNone(ss, p);
      FilterNone(Take(ss, k), p);
    }
  }

  lemma TakeTwice(ss: seq<Section>, k: nat, topK: nat)
    requires topK <= k
    ensures Take(ResultsOf(Take(ss, k)), topK) == Take(ResultsOf(ss), topK)
  {
    if k <= |ss| {
      ResultsOfPrefix(ss, k);
      assert ResultsOf(ss)[..k][..topK] == ResultsOf(ss)[..topK];
    }
  }

  /** Cutting to three times as many before the filter loses nothing. */
  lemma OverFetchSuffices(ss: seq<Section>, threshold: real, topK: nat)
    requires Descending(ss)
    ensures Take(ResultsOf(Filter(Take(ss, FetchCount(topK, threshold)), Passes(threshold))), topK)
            == Take(ResultsOf(Filter(ss, Passes(threshold))), topK)
  {
    FilterAfterCut(ss, threshold, FetchCount(topK, threshold));
    TakeTwice(Filter(ss, Passes(threshold)), FetchCount(topK, threshold), topK);
  }

  lemma PresentedDescends(ss: seq<Section>, n: nat)
    requires Descending(ss)
    ensures Descending(PresentedAll(ss))
    ensures PresentedAll(Take(ss, n)) == Take(PresentedAll(ss), n)
  {
    assert forall i :: 0 <= i < |ss| ==> ScoreOf(PresentedAll(ss)[i]) == ScoreOf(ss[i]);
  }

  /** The search as the code runs it and its specification agree, for every store, query vector, cut and
      threshold. */
  lemma SearchMeetsSpec(root: real -> real, vector: Vector, threshold: real, topK: nat, stored: seq<Section>)
    ensures var fetched := PresentedAll(Take(SortByScore(ScoreAll(root, vector, None, stored)), FetchCount(topK, threshold)));
            Take(ResultsOf(Filter(fetched, Passes(threshold))), topK)
            == BestAboveThreshold(root, vector, threshold, topK, stored)
  {
    var sorted := SortByScore(ScoreAll(root, vector, None, stored));
    SortSpec(ScoreAll(root, vector, None, stored));
    PresentedDescends(sorted, FetchCount(topK, threshold));
    OverFetchSuffices(PresentedAll(sorted), threshold, topK);
  }

  /** `rs` is a best choice of `k` among `all`: it descends and passes the threshold, and if something
      that passes was left out then `rs` is full and none of it scores less. */
  ghost predicate BestChoice(rs: seq<SearchResult>, all: seq<Section>, threshold: real, k: nat) {
    && |rs| <= k
    && (forall i :: 0 <= i < |rs| ==> threshold == 0.0 || rs[i].score >= threshold)
    && (forall i, j :: 0 <= i < j < |rs| ==> rs[i].score >= rs[j].score)
    && (forall s :: s in all && Passes(threshold)(s) ==> ChosenOrBeaten(rs, s, k))
  }

  ghost predicate ChosenOrBeaten(rs: seq<SearchResult>, s: Section, k: nat) {
    ResultOf(s) in rs || (|rs| == k && forall i :: 0 <= i < |rs| ==> rs[i].score >= ScoreOf(s))
  }

  lemma FirstPassing(all: seq<Section>, threshold: real, k: nat)
    requires Descending(all)
    ensures BestChoice(Take(ResultsOf(Filter(all, Passes(threshold))), k), all, threshold, k)
  {
    var m := PassingIsPrefix(all, threshold);
    var n := if k <= m then k else m;
    ResultsOfPrefix(all[..m], n);
    assert all[..m][..n] == all[..n];
    ChoiceOfPrefix(all, threshold, k, n);
  }

  lemma ChoiceOfPrefix(all: seq<Section>, threshold: real, k: nat, n: nat)
    requires Descending(all) && n <= |all| && n <= k
    requires forall i :: 0 <= i < n ==> Passes(threshold)(all[i])
    requires n < k ==> forall i :: n <= i < |all| ==> !Passes(threshold)(all[i])
    ensures BestChoice(ResultsOf(all[..n]), all, threshold, k)
  {
    var rs := ResultsOf(all[..n]);
    ResultsAt(all[..n]);
    assert |rs| == n && forall i :: 0 <= i < n ==> rs[i] == ResultOf(all[i]);
    forall s | s in all && Passes(threshold)(s)
      ensures ChosenOrBeaten(rs, s, k)
    {
      var j :| 0 <= j < |all| && all[j] == s;
      PlacedOrBeaten(all, rs, threshold, k, n, j);
    }
  }

  lemma PlacedOrBeaten(all: seq<Section>, rs: seq<SearchResult>, threshold: real, k: nat, n: nat, j: nat)
    requires Descending(all) && j < |all| && |rs| == n <= |all| && n <= k && Passes(threshold)(all[j])
    requires forall i :: 0 <= i < n ==> rs[i] == ResultOf(all[i])
    requires n < k ==> forall i :: n <= i < |all| ==> !Passes(threshold)(all[i])
    ensures ChosenOrBeaten(rs, all[j], k)
  {
    if j < n { assert rs[j] == ResultOf(all[j]); }
  }

  /** The specification read without the sort. */
  lemma NothingBetterLeftOut(root: real -> real, vector: Vector, threshold: real, topK: nat, stored: seq<Section>)
    ensures BestChoice(BestAboveThreshold(root, vector, threshold, topK, stored),
                       PresentedAll(SortByScore(ScoreAll(root, vector, None, stored))), threshold, topK)
  {
    SortSpec(ScoreAll(root, vector, None, stored));
    PresentedDescends(SortByScore(ScoreAll(root, vector, None, stored)), 0);
    FirstPassing(PresentedAll(SortByScore(ScoreAll(root, vector, None, stored))), threshold, topK);
  }

  lemma {:induction false} ResultsAt(ss: seq<Section>)
    ensures |ResultsOf(ss)| == |ss|
    ensures forall i :: 0 <= i < |ss| ==> ResultsOf(ss)[i] == ResultOf(ss[i])
  {
    if ss != [] { ResultsAt(ss[..|ss| - 1]); }
  }

  lemma MappedNext(ss: seq<Section>, i: nat, threshold: real)
    requires i < |ss|
    ensures ResultsOf(Filter(ss[..i + 1], Passes(threshold)))
            == ResultsOf(Filter(ss[..i], Passes(threshold))) + if Passes(threshold)(ss[i]) then [ResultOf(ss[i])] else []
  {
    assert ss[..i + 1] == ss[..i] + [ss[i]];
    FilterConcat(ss[..i], [ss[i]], Passes(threshold));
    ResultsOfConcat(Filter(ss[..i], Passes(threshold)), Filter([ss[i]], Passes(threshold)));
    assert Filter([ss[i]], Passes(threshold)) == if Passes(threshold)(ss[i]) then [ss[i]] else [];
    assert ResultsOf([ss[i]]) == [ResultOf(ss[i])] && ResultsOf([]) == [];
  }

  class SearchSections {
    const index: VectorStoreSectionIndex
    const cacheSize: nat
    var queryCache: QueryCaches.Cache

    constructor (index: VectorStoreSectionIndex, cacheSize: nat)
      ensures this.index == index && this.cacheSize == cacheSize && queryCache == Empty()
    {
      this.index := index;
      this.cacheSize := cacheSize;
      queryCache := Empty();
    }

    /** The first critical section of `_embed_query`. */
    method CacheLookup(query: string) returns (cached: Option<Vector>)
      modifies this
      ensures cached == old(queryCache).Get(query)
      ensures queryCache == if cached.Some? then old(queryCache).MoveToEnd(query) else old(queryCache)
    {
      cached := queryCache.Get(query);
      if cached.Some? {
        queryCache := queryCache.MoveToEnd(query);
      }
    }

    /** The second critical section of `_embed_query`. */
    method CacheStore(query: string, v: Vector)
      modifies this
      ensures queryCache == QueryCaches.Stored(old(queryCache), cacheSize, query, v)
    {
      queryCache := queryCache.Set(query, v);
      if queryCache.Size() > cacheSize {
        queryCache := queryCache.PopFirst();
      }
    }

    /** `_embed_query` by one thread; `answer` is what the provider returns if it is asked, nothing if it raises. */
    method EmbedQuery(query: string, answer: Option<Vector>) returns (v: Option<Vector>)
      modifies this
      ensures v == if query in old(queryCache).vals then old(queryCache).Get(query) else answer
      ensures queryCache == if query in old(queryCache).vals then old(queryCache).MoveToEnd(query)
                            else if answer.None? then old(queryCache)
                            else QueryCaches.Stored(old(queryCache), cacheSize, query, answer.value)
    {
      v := CacheLookup(query);
      if v.Some? { return; }
      v := answer;
      if v.Some? { CacheStore(query, v.value); }
    }

    /** `search`: raises only if the query is not cached and the provider raises. */
    method Search(root: real -> real, query: string, answer: Option<Vector>, threshold: real, topK: nat)
      returns (results: Option<seq<SearchResult>>)
      requires index.store.sections.Valid()
      modifies this
      ensures var v := if query in old(queryCache).vals then old(queryCache).Get(query) else answer;
              results == if v.None? then None
                         else Some(BestAboveThreshold(root, v.value, threshold, topK, index.store.sections.Values()))
    {
      var v := EmbedQuery(query, answer);
      if v.None? { return None; }
      var best := SearchVector(root, v.value, threshold, topK);
      results := Some(best);
    }

    /** `search` once the query has its vector. */
    method SearchVector(root: real -> real, queryVector: Vector, threshold: real, topK: nat) returns (results: seq<SearchResult>)
      requires index.store.sections.Valid()
      ensures results == BestAboveThreshold(root, queryVector, threshold, topK, index.store.sections.Values())
    {
      var fetchK := if threshold > 0.0 then topK * 3 else topK;
      var rawResults := index.SearchSections(root, queryVector, fetchK);
      var mapped: seq<SearchResult> := [];
      for i := 0 to |rawResults|
        invariant mapped == ResultsOf(Filter(rawResults[..i], Passes(threshold)))
      {
        var section := rawResults[i];
        MappedNext(rawResults, i, threshold);
        var score := ScoreOf(section);
        if threshold != 0.0 && score < threshold {
          continue;
        }
        mapped := mapped + [ResultOf(section)];
      }
      assert rawResults[..|rawResults|] == rawResults;
      results := Take(mapped, topK);
      SearchMeetsSpec(root, queryVector, threshold, topK, index.store.sections.Values());
    }
  }
}
