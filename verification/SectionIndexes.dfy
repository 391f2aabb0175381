/** `VectorStoreSectionIndex` of app/infrastructure/vector/section_index.py: the copies it puts into the
    store and the records it builds from what the store finds. */
module SectionIndexes {
  import opened Sequences
  import opened Sections
  import opened VectorStores

  function UriMeta(u: Option<string>): Meta {
    if u.Some? then TextMeta(u.value) else NoneMeta
  }

  /** The copy `upsert_sections` hands to the store. */
  function Enriched(s: Section): Section {
    s.(metadata := s.metadata
                   ["section_id" := TextMeta(s.id)]
                   ["section_content" := TextMeta(s.content)]
                   ["caption" := TextMeta(s.caption)]
                   ["heading" := TextMeta(s.heading)]
                   ["heading_path" := PathMeta(s.headingPath)]
                   ["section_order" := NumberMeta(s.order)]
                   ["s3_uri" := UriMeta(s.sourceUri)]
                   ["source_s3_uri" := UriMeta(s.sourceUri)]
                   ["markdown_s3_uri" := UriMeta(s.markdownUri)])
  }

  function EnrichedAll(ss: seq<Section>): (r: seq<Section>)
    ensures |r| == |ss|
    ensures forall i :: 0 <= i < |ss| ==> r[i] == Enriched(ss[i])
  {
    seq(|ss|, i requires 0 <= i < |ss| => Enriched(ss[i]))
  }

  function TextAt(m: map<string, Meta>, key: string): string {
    if key in m && m[key].TextMeta? then m[key].text else ""
  }

  function UriAt(m: map<string, Meta>, key: string): Option<string> {
    if key in m && m[key].TextMeta? then Some(m[key].text) else None
  }

  function PathAt(m: map<string, Meta>, key: string): seq<string> {
    if key in m && m[key].PathMeta? then m[key].path else []
  }

  function NumberAt(m: map<string, Meta>, key: string): nat {
    if key in m && m[key].NumberMeta? then m[key].n else 0
  }

  /** Python's `or` on texts and on URIs: the first that is neither missing nor empty, else the last. */
  function OrText(a: string, b: string): string { if a != "" then a else b }

  function OrUri(a: Option<string>, b: Option<string>): Option<string> {
    if a.Some? && a.value != "" then a else b
  }

  /** The record `search_sections` builds from a section found in the store. */
  function Presented(r: Section): Section {
    var m := r.metadata;
    Section(
      OrText(OrText(r.id, TextAt(m, "section_id")), TextAt(m, "chunk_id")),
      r.docId,
      OrText(r.content, TextAt(m, "content")),
      OrText(r.caption, TextAt(m, "caption")),
      [],
      OrText(r.heading, TextAt(m, "heading")),
      if r.headingPath != [] then r.headingPath else PathAt(m, "heading_path"),
      if r.order != 0 then r.order else NumberAt(m, "section_order"),
      OrUri(r.markdownUri, UriAt(m, "markdown_s3_uri")),
      OrUri(OrUri(r.sourceUri, UriAt(m, "source_s3_uri")), UriAt(m, "s3_uri")),
      m)
  }

  function PresentedAll(ss: seq<Section>): (r: seq<Section>)
    ensures |r| == |ss|
    ensures forall i :: 0 <= i < |ss| ==> r[i] == Presented(ss[i])
  {
    seq(|ss|, i requires 0 <= i < |ss| => Presented(ss[i]))
  }

  /** The fields a reader of search results sees, apart from the metadata. */
  ghost predicate SameRecord(a: Section, b: Section) {
    && a.id == b.id && a.docId == b.docId && a.content == b.content && a.caption == b.caption
    && a.heading == b.heading && a.headingPath == b.headingPath && a.order == b.order
    && a.markdownUri == b.markdownUri && a.sourceUri == b.sourceUri
  }

  /** A section comes back from the index as it went in, embedding aside, exactly when it has an
      identifier and a content or the stale metadata keys `chunk_id` and `content` cannot stand in. */
  lemma IndexedComesBack(s: Section, score: real)
    ensures var found := Enriched(s).(metadata := Enriched(s).metadata["score" := ScoreMeta(score)]);
            && (SameRecord(Presented(found), s) <==>
                  (s.id != "" || TextAt(s.metadata, "chunk_id") == "")
                  && (s.content != "" || TextAt(s.metadata, "content") == ""))
            && Presented(found).embedding == []
            && ScoreOf(Presented(found)) == score
  {
    EnrichedReads(s, score);
    EnrichedUris(s, score);
    EnrichedKeeps(s, score);
  }

  /** What the copied metadata says. */
  lemma EnrichedReads(s: Section, score: real)
    ensures var m := Enriched(s).metadata["score" := ScoreMeta(score)];
            && TextAt(m, "section_id") == s.id && TextAt(m, "caption") == s.caption && TextAt(m, "heading") == s.heading
            && PathAt(m, "heading_path") == s.headingPath && NumberAt(m, "section_order") == s.order
  {
    assert "section_order"[1] != "source_s3_uri"[1];
  }

  lemma EnrichedUris(s: Section, score: real)
    ensures var m := Enriched(s).metadata["score" := ScoreMeta(score)];
            && UriAt(m, "markdown_s3_uri") == s.markdownUri
            && UriAt(m, "source_s3_uri") == s.sourceUri && UriAt(m, "s3_uri") == s.sourceUri
  {
  }

  /** The two keys the copy leaves as they were. */
  lemma EnrichedKeeps(s: Section, score: real)
    ensures var m := Enriched(s).metadata["score" := ScoreMeta(score)];
            && TextAt(m, "chunk_id") == TextAt(s.metadata, "chunk_id")
            && TextAt(m, "content") == TextAt(s.metadata, "content")
  {
    assert "content"[0] != "heading"[0] && "content"[1] != "caption"[1];
  }

  /** A record is presented with its own fields; only one that is missing or empty is looked up in the metadata. */
  lemma OwnFieldsFirst(r: Section)
    ensures Presented(r).docId == r.docId && Presented(r).metadata == r.metadata
    ensures r.id != "" ==> Presented(r).id == r.id
    ensures r.content != "" ==> Presented(r).content == r.content
    ensures Presented(r).caption == (if r.caption != "" then r.caption else TextAt(r.metadata, "caption"))
    ensures Presented(r).heading == (if r.heading != "" then r.heading else TextAt(r.metadata, "heading"))
    ensures r.headingPath != [] ==> Presented(r).headingPath == r.headingPath
    ensures r.order != 0 ==> Presented(r).order == r.order
    ensures r.markdownUri.Some? && r.markdownUri.value != "" ==> Presented(r).markdownUri == r.markdownUri
    ensures r.sourceUri.Some? && r.sourceUri.value != "" ==> Presented(r).sourceUri == r.sourceUri
  {
  }

  class VectorStoreSectionIndex {
    const store: InMemoryVectorStore

    constructor (store: InMemoryVectorStore)
      ensures this.store == store
    {
      this.store := store;
    }

    method UpsertSections(ss: seq<Section>)
      modifies store
      ensures store.sections == UpsertAll(old(store.sections), EnrichedAll(ss))
    {
      store.Upsert(EnrichedAll(ss));
    }

    method SearchSections(root: real -> real, vector: Vector, topK: nat) returns (r: seq<Section>)
      requires store.sections.Valid()
      ensures r == PresentedAll(Take(SortByScore(ScoreAll(root, vector, None, store.sections.Values())), topK))
    {
      var results := store.Search(root, vector, topK, None);
      r := PresentedAll(results);
    }

    /** A deletion that raises after `k` removals. */
    method DeleteInterrupted(docId: string, k: nat)
      requires store.sections.Valid()
      modifies store
      ensures store.sections == DeleteKeys(old(store.sections), Take(KeysOf(old(store.sections), old(store.sections).order, docId), k))
    {
      store.DeleteInterrupted(docId, k);
    }

    method DeleteDocument(docId: string)
      requires store.sections.Valid()
      modifies store
      ensures store.sections == DeleteDoc(old(store.sections), docId)
    {
      store.Delete(docId);
    }
  }
}
