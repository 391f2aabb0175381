/** `InMemoryVectorStore` of app/infrastructure/vector/memory_store.py. */
module VectorStores {
  import opened Sequences
  import opened OrderedDicts
  import opened Sections
  import opened Cosine

  type Store = OrderedDict<string, Section>

  // ---- upsert and delete ----

  /** `upsert`. */
  function UpsertAll(d: Store, ss: seq<Section>): Store {
    if ss == [] then d
    else
      var last := ss[|ss| - 1];
      UpsertAll(d, ss[..|ss| - 1]).Set(last.id, last)
  }

  lemma {:induction false} UpsertLeaves(d: Store, ss: seq<Section>, k: string)
    requires forall i :: 0 <= i < |ss| ==> ss[i].id != k
    ensures UpsertAll(d, ss).Get(k) == d.Get(k)
  {
    if ss != [] { UpsertLeaves(d, ss[..|ss| - 1], k); }
  }

  /** Of the sections put in under one identifier the last is held; and a section put in under an identifier in use
      takes the place of the one it replaces. */
  lemma {:induction false} UpsertHoldsLast(d: Store, ss: seq<Section>, i: nat)
    requires i < |ss| && forall j :: i < j < |ss| ==> ss[j].id != ss[i].id
    ensures UpsertAll(d, ss).Get(ss[i].id) == Some(ss[i])
    ensures d.order <= UpsertAll(d, ss).order
  {
    var n := |ss| - 1;
    UpsertOrder(d, ss[..n]);
    if i < n { UpsertHoldsLast(d, ss[..n], i); }
  }

  lemma {:induction false} UpsertOrder(d: Store, ss: seq<Section>)
    ensures d.order <= UpsertAll(d, ss).order
  {
    if ss != [] { UpsertOrder(d, ss[..|ss| - 1]); }
  }

  function DeleteKeys(d: Store, ids: seq<string>): Store {
    if ids == [] then d else DeleteKeys(d, ids[..|ids| - 1]).Delete(ids[|ids| - 1])
  }

  /** The keys, in order, whose section belongs to the document. */
  function KeysOf(d: Store, order: seq<string>, docId: string): seq<string> {
    if order == [] then []
    else
      var n := |order| - 1;
      var k := order[n];
      KeysOf(d, order[..n], docId) + if k in d.vals && d.vals[k].docId == docId then [k] else []
  }

  /** `delete`. */
  function DeleteDoc(d: Store, docId: string): Store {
    DeleteKeys(d, KeysOf(d, d.order, docId))
  }

  function OfDoc(docId: string): Section -> bool { (s: Section) => s.docId == docId }

  ghost predicate Filed(d: Store) {
    && d.Valid()
    && forall k :: k in d.vals ==>
         d.vals[k].id == k && k == SectionId(d.vals[k].docId, d.vals[k].order)
  }

  /** The sections of one document, in the order the store lists them. */
  function SectionsIn(d: Store, docId: string): seq<Section>
    requires forall k :: k in d.order ==> k in d.vals
  {
    Filter(d.Values(), OfDoc(docId))
  }

  lemma ValuesOfSet(d: Store, k: string, s: Section)
    requires d.Valid() && k !in d.vals
    ensures d.Set(k, s).Valid()
    ensures d.Set(k, s).Values() == d.Values() + [s]
  {
    SetValid(d, k, s);
    var d' := d.Set(k, s);
    assert forall i :: 0 <= i < |d.order| ==> d'.order[i] == d.order[i] && d.order[i] != k;
  }

  /** Putting a document's numbered sections into a store that has none of it adds exactly them, at the
      end and in order, and leaves every other document's sections alone. */
  lemma {:induction false} UpsertIntoCleared(d: Store, ss: seq<Section>, docId: string, other: string)
    requires Filed(d) && NumberedFor(ss, docId) && SectionsIn(d, docId) == []
    ensures Filed(UpsertAll(d, ss))
    ensures SectionsIn(UpsertAll(d, ss), docId) == ss
    ensures other != docId ==> SectionsIn(UpsertAll(d, ss), other) == SectionsIn(d, other)
  {
    if ss != [] {
      var n := |ss| - 1;
      var before := UpsertAll(d, ss[..n]);
      NumberedParts(ss, docId);
      UpsertIntoCleared(d, ss[..n], docId, other);
      NotFiledYet(before, ss, docId);
      UpsertNext(before, ss[..n], ss[n], docId, other);
    }
  }

  lemma NumberedParts(ss: seq<Section>, docId: string)
    requires NumberedFor(ss, docId) && ss != []
    ensures NumberedFor(ss[..|ss| - 1], docId)
    ensures var s := ss[|ss| - 1]; s.docId == docId && s.id == SectionId(docId, s.order) && ss == ss[..|ss| - 1] + [s]
  {
  }

  lemma UpsertNext(before: Store, ss: seq<Section>, s: Section, docId: string, other: string)
    requires Filed(before) && SectionsIn(before, docId) == ss && s.id !in before.vals
    requires s.docId == docId && s.id == SectionId(docId, s.order)
    ensures Filed(before.Set(s.id, s))
    ensures SectionsIn(before.Set(s.id, s), docId) == ss + [s]
    ensures other != docId ==> SectionsIn(before.Set(s.id, s), other) == SectionsIn(before, other)
  {
    UpsertFresh(before, s, other);
  }

  /** Putting in one section under an identifier that is not in use. */
  lemma UpsertFresh(d: Store, s: Section, other: string)
    requires Filed(d) && s.id !in d.vals && s.id == SectionId(s.docId, s.order)
    ensures Filed(d.Set(s.id, s))
    ensures SectionsIn(d.Set(s.id, s), s.docId) == SectionsIn(d, s.docId) + [s]
    ensures other != s.docId ==> SectionsIn(d.Set(s.id, s), other) == SectionsIn(d, other)
  {
    ValuesOfSet(d, s.id, s);
    FilterConcat(d.Values(), [s], OfDoc(s.docId));
    FilterConcat(d.Values(), [s], OfDoc(other));
    assert OfDoc(s.docId)(s);
  }

  /** The next section's identifier is not in use: by injectivity it could only belong to this document. */
  lemma NotFiledYet(d: Store, ss: seq<Section>, docId: string)
    requires Filed(d) && NumberedFor(ss, docId) && ss != [] && SectionsIn(d, docId) == ss[..|ss| - 1]
    ensures ss[|ss| - 1].id !in d.vals
  {
    var n := |ss| - 1;
    var k := ss[n].id;
    if k in d.vals {
      SectionIdInjective(d.vals[k].docId, d.vals[k].order, docId, n);
      StoredIsListed(d, k);
    }
  }

  lemma StoredIsListed(d: Store, k: string)
    requires d.Valid() && k in d.vals
    ensures d.vals[k] in SectionsIn(d, d.vals[k].docId)
  {
    var s := d.vals[k];
    var i :| 0 <= i < |d.order| && d.order[i] == k;
    assert d.Values()[i] == s;
    FilterMembers(d.Values(), OfDoc(s.docId));
    assert OfDoc(s.docId)(s) && s in d.Values();
  }

  // ---- what delete leaves ----

  lemma {:induction false} KeysOfSpec(d: Store, order: seq<string>, docId: string)
    ensures forall k :: k in KeysOf(d, order, docId) <==> k in order && k in d.vals && d.vals[k].docId == docId
  {
    if order != [] { KeysOfSpec(d, order[..|order| - 1], docId); }
  }

  lemma {:induction false} DeleteKeysValid(d: Store, ids: seq<string>)
    requires d.Valid()
    ensures DeleteKeys(d, ids).Valid()
    ensures forall k :: k in DeleteKeys(d, ids).vals <==> k in d.vals && k !in ids
    ensures forall k :: k in DeleteKeys(d, ids).vals ==> DeleteKeys(d, ids).vals[k] == d.vals[k]
  {
    if ids != [] {
      var n := |ids| - 1;
      DeleteKeysValid(d, ids[..n]);
      DeleteValid(DeleteKeys(d, ids[..n]), ids[n]);
      assert forall k :: k in ids <==> k in ids[..n] || k == ids[n];
    }
  }

  function ValuesAt(order: seq<string>, vals: map<string, Section>): seq<Section>
    requires forall k :: k in order ==> k in vals
  {
    if order == [] then [] else [vals[order[0]]] + ValuesAt(order[1..], vals)
  }

  lemma {:induction false} ValuesAtIs(d: Store, lo: nat)
    requires d.Valid() && lo <= |d.order|
    ensures ValuesAt(d.order[lo..], d.vals) == d.Values()[lo..]
    decreases |d.order| - lo
  {
    if lo < |d.order| {
      assert d.order[lo..][1..] == d.order[lo + 1..];
      ValuesAtIs(d, lo + 1);
    }
  }

  /** Dropping a key drops its section and nothing else. */
  lemma {:induction false} FilterWithout(order: seq<string>, vals: map<string, Section>, k: string, docId: string)
    requires forall x :: x in order ==> x in vals
    requires k in vals
    ensures forall x :: x in Without(order, k) ==> x in vals - {k}
    ensures vals[k].docId != docId ==>
              Filter(ValuesAt(Without(order, k), vals - {k}), OfDoc(docId)) == Filter(ValuesAt(order, vals), OfDoc(docId))
  {
    if order != [] {
      assert order[0] in order;
      FilterWithout(order[1..], vals, k, docId);
    }
  }

  lemma SectionsInAt(d: Store, docId: string)
    requires d.Valid()
    ensures SectionsIn(d, docId) == Filter(ValuesAt(d.order, d.vals), OfDoc(docId))
  {
    ValuesAtIs(d, 0);
    assert d.order[0..] == d.order && d.Values()[0..] == d.Values();
  }

  lemma DeleteKeyKeeps(d: Store, k: string, other: string)
    requires d.Valid() && k in d.vals && d.vals[k].docId != other
    ensures d.Delete(k).Valid() && SectionsIn(d.Delete(k), other) == SectionsIn(d, other)
  {
    DeleteValid(d, k);
    SectionsInAt(d, other);
    SectionsInAt(d.Delete(k), other);
    FilterWithout(d.order, d.vals, k, other);
  }

  lemma {:induction false} DeleteKeysKeep(d: Store, ids: seq<string>, docId: string, other: string)
    requires d.Valid() && other != docId
    requires forall i :: 0 <= i < |ids| ==> ids[i] in d.vals && d.vals[ids[i]].docId == docId
    ensures DeleteKeys(d, ids).Valid() && SectionsIn(DeleteKeys(d, ids), other) == SectionsIn(d, other)
  {
    if ids != [] {
      var n := |ids| - 1;
      DeleteKeysKeep(d, ids[..n], docId, other);
      DeleteKeysValid(d, ids[..n]);
      DeleteStep(DeleteKeys(d, ids[..n]), ids[n], docId, other);
    }
  }

  lemma DeleteStep(d: Store, k: string, docId: string, other: string)
    requires d.Valid() && other != docId && (k in d.vals ==> d.vals[k].docId == docId)
    ensures d.Delete(k).Valid() && SectionsIn(d.Delete(k), other) == SectionsIn(d, other)
  {
    if k in d.vals {
      DeleteKeyKeeps(d, k, other);
    } else {
      WithoutAbsent(d.order, k);
      assert d.vals - {k} == d.vals;
    }
  }

  /** After `delete` the document has no section left and every other document has all of its own. */
  lemma DeleteDocSpec(d: Store, docId: string, other: string)
    requires Filed(d)
    ensures Filed(DeleteDoc(d, docId))
    ensures SectionsIn(DeleteDoc(d, docId), docId) == []
    ensures other != docId ==> SectionsIn(DeleteDoc(d, docId), other) == SectionsIn(d, other)
  {
    var ids := KeysOf(d, d.order, docId);
    KeysOfSpec(d, d.order, docId);
    DeleteKeysValid(d, ids);
    assert forall i :: 0 <= i < |ids| ==> ids[i] in ids;
    if other != docId { DeleteKeysKeep(d, ids, docId, other); }
    NoneOfDocument(DeleteDoc(d, docId), docId);
  }

  lemma NoneOfDocument(d: Store, docId: string)
    requires d.Valid() && forall k :: k in d.vals ==> d.vals[k].docId != docId
    ensures SectionsIn(d, docId) == []
  {
    forall s | s in d.Values()
      ensures !OfDoc(docId)(s)
    {
      var i :| 0 <= i < |d.order| && d.Values()[i] == s;
      assert d.order[i] in d.order;
    }
    FilterNone(d.Values(), OfDoc(docId));
  }

  // ---- search ----

  function ScoreOf(s: Section): real {
    if "score" in s.metadata && s.metadata["score"].ScoreMeta? then s.metadata["score"].score else 0.0
  }

  /** A copy of the section with its score in the metadata. */
  function Scored(root: real -> real, vector: Vector, s: Section): Section {
    s.(metadata := s.metadata["score" := ScoreMeta(Similarity(root, vector, s.embedding))])
  }

  /** Which sections a search looks at: an empty or missing `doc_id` filter lets everything through. */
  predicate Selected(filter: Option<string>, s: Section) {
    filter.None? || filter.value == "" || s.docId == filter.value
  }

  function ScoreAll(root: real -> real, vector: Vector, filter: Option<string>, ss: seq<Section>): seq<Section> {
    if ss == [] then []
    else
      var s := ss[|ss| - 1];
      ScoreAll(root, vector, filter, ss[..|ss| - 1])
      + if Selected(filter, s) then [Scored(root, vector, s)] else []
  }

  /** Puts `s` behind everything that scores at least as much. */
  function InsertScored(sorted: seq<Section>, s: Section): seq<Section> {
    if sorted == [] || ScoreOf(sorted[|sorted| - 1]) >= ScoreOf(s) then sorted + [s]
    else InsertScored(sorted[..|sorted| - 1], s) + [sorted[|sorted| - 1]]
  }

  /** `list.sort(key=score, reverse=True)`. */
  function SortByScore(ss: seq<Section>): seq<Section> {
    if ss == [] then [] else InsertScored(SortByScore(ss[..|ss| - 1]), ss[|ss| - 1])
  }

  lemma ScoredOne(root: real -> real, vector: Vector, ss: seq<Section>, s: Section)
    ensures ScoreAll(root, vector, None, ss + [s]) == ScoreAll(root, vector, None, ss) + [Scored(root, vector, s)]
  {
    assert (ss + [s])[..|ss|] == ss;
  }

  lemma FilteredNext(root: real -> real, vector: Vector, docId: string, ss: seq<Section>, s: Section)
    requires docId != ""
    ensures ScoreAll(root, vector, Some(docId), ss + [s])
            == if s.docId == docId then ScoreAll(root, vector, Some(docId), ss) + [Scored(root, vector, s)]
               else ScoreAll(root, vector, Some(docId), ss)
  {
    assert (ss + [s])[..|ss|] == ss;
  }

  /** A search within one document is a search of that document's sections. */
  lemma {:induction false} FilterFirst(root: real -> real, vector: Vector, docId: string, ss: seq<Section>)
    requires docId != ""
    ensures ScoreAll(root, vector, Some(docId), ss) == ScoreAll(root, vector, None, Filter(ss, OfDoc(docId)))
  {
    if ss != [] {
      var n := |ss| - 1;
      FilterFirst(root, vector, docId, ss[..n]);
      FilterLast(ss, OfDoc(docId));
      assert OfDoc(docId)(ss[n]) <==> ss[n].docId == docId;
      FilteredNext(root, vector, docId, ss[..n], ss[n]);
      if ss[n].docId == docId { ScoredOne(root, vector, Filter(ss[..n], OfDoc(docId)), ss[n]); }
      assert ss[..n] + [ss[n]] == ss;
    }
  }

  lemma FilterLast(ss: seq<Section>, p: Section -> bool)
    requires ss != []
    ensures Filter(ss, p) == if p(ss[|ss| - 1]) then Filter(ss[..|ss| - 1], p) + [ss[|ss| - 1]] else Filter(ss[..|ss| - 1], p)
  {
    var n := |ss| - 1;
    assert ss == ss[..n] + [ss[n]];
    FilterConcat(ss[..n], [ss[n]], p);
    assert Filter([ss[n]], p) == if p(ss[n]) then [ss[n]] else [];
  }

  /** A filter without an identifier is none. */
  lemma {:induction false} EmptyFilter(root: real -> real, vector: Vector, ss: seq<Section>)
    ensures ScoreAll(root, vector, Some(""), ss) == ScoreAll(root, vector, None, ss)
  {
    if ss != [] { EmptyFilter(root, vector, ss[..|ss| - 1]); }
  }

  ghost predicate Descending(ss: seq<Section>) {
    forall i, j :: 0 <= i < j < |ss| ==> ScoreOf(ss[i]) >= ScoreOf(ss[j])
  }

  function Scores(x: real): Section -> bool { (s: Section) => ScoreOf(s) == x }

  lemma {:induction false} InsertKeepsOrder(sorted: seq<Section>, s: Section)
    requires Descending(sorted)
    ensures Descending(InsertScored(sorted, s))
    ensures forall x :: x in InsertScored(sorted, s) <==> x in sorted || x == s
  {
    if sorted != [] && !(ScoreOf(sorted[|sorted| - 1]) >= ScoreOf(s)) {
      var n := |sorted| - 1;
      InsertKeepsOrder(sorted[..n], s);
      var r := InsertScored(sorted[..n], s);
      forall i | 0 <= i < |r| ensures ScoreOf(r[i]) >= ScoreOf(sorted[n]) { assert r[i] in r; }
      assert forall x :: x in sorted <==> x in sorted[..n] || x == sorted[n];
    }
  }

  lemma {:induction false} InsertIsStable(sorted: seq<Section>, s: Section, x: real)
    ensures Filter(InsertScored(sorted, s), Scores(x)) == Filter(sorted, Scores(x)) + Filter([s], Scores(x))
  {
    if sorted == [] || ScoreOf(sorted[|sorted| - 1]) >= ScoreOf(s) {
      FilterConcat(sorted, [s], Scores(x));
    } else {
      var n := |sorted| - 1;
      var last := sorted[n];
      InsertIsStable(sorted[..n], s, x);
      FilterConcat(InsertScored(sorted[..n], s), [last], Scores(x));
      FilterConcat(sorted[..n], [last], Scores(x));
      assert sorted == sorted[..n] + [last];
      assert Filter([s], Scores(x)) == [] || Filter([last], Scores(x)) == [];
    }
  }

  /** The sort is descending and, score by score, keeps the sections it was given in their order. */
  lemma {:induction false} SortSpec(ss: seq<Section>)
    ensures Descending(SortByScore(ss))
    ensures forall x :: Filter(SortByScore(ss), Scores(x)) == Filter(ss, Scores(x))
    ensures |SortByScore(ss)| == |ss|
  {
    if ss != [] {
      var n := |ss| - 1;
      SortSpec(ss[..n]);
      InsertKeepsOrder(SortByScore(ss[..n]), ss[n]);
      InsertLength(SortByScore(ss[..n]), ss[n]);
      forall x
        ensures Filter(SortByScore(ss), Scores(x)) == Filter(ss, Scores(x))
      {
        InsertIsStable(SortByScore(ss[..n]), ss[n], x);
        FilterConcat(ss[..n], [ss[n]], Scores(x));
        assert ss == ss[..n] + [ss[n]];
      }
    }
  }

  lemma {:induction false} InsertLength(sorted: seq<Section>, s: Section)
    ensures |InsertScored(sorted, s)| == |sorted| + 1
  {
    if sorted != [] && !(ScoreOf(sorted[|sorted| - 1]) >= ScoreOf(s)) {
      InsertLength(sorted[..|sorted| - 1], s);
    }
  }

  lemma FirstOfScore(a: seq<Section>, x: real)
    requires a != [] && ScoreOf(a[0]) == x
    ensures Filter(a, Scores(x)) == [a[0]] + Filter(a[1..], Scores(x))
  {
  }

  lemma HeadScore(a: seq<Section>, b: seq<Section>)
    requires Descending(a) && Descending(b) && a != []
    requires forall x :: Filter(a, Scores(x)) == Filter(b, Scores(x))
    ensures b != [] && ScoreOf(b[0]) >= ScoreOf(a[0])
  {
    var x := ScoreOf(a[0]);
    FirstOfScore(a, x);
    FilterMembers(b, Scores(x));
    assert a[0] in Filter(b, Scores(x));
    var i :| 0 <= i < |b| && b[i] == a[0];
  }

  /** These two properties leave no choice: any list that has them is the sorted one. */
  lemma {:induction false} SortIsUnique(a: seq<Section>, b: seq<Section>)
    requires Descending(a) && Descending(b)
    requires forall x :: Filter(a, Scores(x)) == Filter(b, Scores(x))
    ensures a == b
  {
    if a == [] {
      if b != [] { HeadScore(b, a); }
    } else {
      HeadScore(a, b);
      HeadScore(b, a);
      var x := ScoreOf(a[0]);
      FirstOfScore(a, x);
      FirstOfScore(b, x);
      assert Filter(a, Scores(x)) == Filter(b, Scores(x));
      assert Filter(a, Scores(x))[0] == a[0] && Filter(b, Scores(x))[0] == b[0];
      forall y
        ensures Filter(a[1..], Scores(y)) == Filter(b[1..], Scores(y))
      {
        assert Filter(a, Scores(y)) == Filter(b, Scores(y));
        if y == x {
          assert Filter(a, Scores(x))[1..] == Filter(a[1..], Scores(x));
          assert Filter(b, Scores(x))[1..] == Filter(b[1..], Scores(x));
        }
      }
      SortIsUnique(a[1..], b[1..]);
    }
  }

  lemma KeysOfNext(d: Store, order: seq<string>, i: nat, docId: string)
    requires i < |order|
    ensures KeysOf(d, order[..i + 1], docId)
            == KeysOf(d, order[..i], docId) + if order[i] in d.vals && d.vals[order[i]].docId == docId then [order[i]] else []
  {
    assert order[..i + 1][..i] == order[..i];
  }

  lemma DeleteKeysNext(d: Store, ids: seq<string>, i: nat)
    requires i < |ids|
    ensures DeleteKeys(d, ids[..i + 1]) == DeleteKeys(d, ids[..i]).Delete(ids[i])
  {
    assert ids[..i + 1][..i] == ids[..i];
  }

  class InMemoryVectorStore {
    var sections: Store

    constructor ()
      ensures sections == Empty()
    {
      sections := Empty();
    }

    method Upsert(ss: seq<Section>)
      modifies this
      ensures sections == UpsertAll(old(sections), ss)
    {
      for i := 0 to |ss|
        invariant sections == UpsertAll(old(sections), ss[..i])
      {
        assert ss[..i + 1][..i] == ss[..i];
        sections := sections.Set(ss[i].id, ss[i]);
      }
      assert ss[..|ss|] == ss;
    }

    method Search(root: real -> real, vector: Vector, topK: nat, filter: Option<string>) returns (r: seq<Section>)
      requires sections.Valid()
      ensures r == Take(SortByScore(ScoreAll(root, vector, filter, sections.Values())), topK)
    {
      var values := sections.Values();
      var scored: seq<Section> := [];
      for i := 0 to |values|
        invariant scored == ScoreAll(root, vector, filter, values[..i])
      {
        assert values[..i + 1][..i] == values[..i];
        var section := values[i];
        if filter.Some? && filter.value != "" && section.docId != filter.value {
          continue;
        }
        var score := Similarity(root, vector, section.embedding);
        var merged := section.(metadata := section.metadata["score" := ScoreMeta(score)]);
        scored := scored + [merged];
      }
      assert values[..|values|] == values;
      r := Take(SortByScore(scored), topK);
    }

    /** The keys `delete` is going to remove. */
    method KeysToRemove(docId: string) returns (toRemove: seq<string>)
      requires sections.Valid()
      ensures toRemove == KeysOf(sections, sections.order, docId)
    {
      toRemove := [];
      var order := sections.order;
      for i := 0 to |order|
        invariant toRemove == KeysOf(sections, order[..i], docId)
      {
        KeysOfNext(sections, order, i, docId);
        assert order[i] in order;
        if sections.vals[order[i]].docId == docId {
          toRemove := toRemove + [order[i]];
        }
      }
      assert order[..|order|] == order;
    }

    method Remove(toRemove: seq<string>)
      modifies this
      ensures sections == DeleteKeys(old(sections), toRemove)
    {
      assert toRemove[..0] == [];
      for i := 0 to |toRemove|
        invariant sections == DeleteKeys(old(sections), toRemove[..i])
      {
        DeleteKeysNext(old(sections), toRemove, i);
        sections := sections.Delete(toRemove[i]);
      }
      assert toRemove[..|toRemove|] == toRemove;
    }

    method Delete(docId: string)
      requires sections.Valid()
      modifies this
      ensures sections == DeleteDoc(old(sections), docId)
    {
      var toRemove := KeysToRemove(docId);
      Remove(toRemove);
    }

    /** A deletion that raises after `k` removals. */
    method DeleteInterrupted(docId: string, k: nat)
      requires sections.Valid()
      modifies this
      ensures sections == DeleteKeys(old(sections), Take(KeysOf(old(sections), old(sections).order, docId), k))
    {
      var toRemove := KeysToRemove(docId);
      Remove(Take(toRemove, k));
    }
  }
}
