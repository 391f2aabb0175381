/** The decision loop of `S3Scanner.scan` (adapters/s3_adapter.py). */
module Scanners {
  import opened Sequences
  import opened Sections
  import opened MetadataStores

  /** What the listing tells about one object. */
  datatype Object = Object(key: string, lastModified: int)

  /** `docIdOf` is the MD5 of the URI, assumed free of collisions; `supported` tells whether the key's suffix
      is one of the twelve; `nameOf` is `Path(key).name`; `lower` is `str.lower`. */
  datatype Config = Config(
    docIdOf: string -> string,
    supported: string -> bool,
    nameOf: string -> string,
    lower: string -> string,
    staleSeconds: nat)

  ghost predicate ValidConfig(cfg: Config) {
    forall a, b :: cfg.docIdOf(a) == cfg.docIdOf(b) ==> a == b
  }

  /** A discovered file. */
  datatype Item = Item(key: string, uri: string, lastModified: int, fileName: string)

  function UriOf(bucket: string, key: string): string { "s3://" + bucket + "/" + key }

  function ItemOf(cfg: Config, bucket: string, o: Object): Item {
    Item(o.key, UriOf(bucket, o.key), o.lastModified, cfg.nameOf(o.key))
  }

  function ItemsOf(cfg: Config, bucket: string, objects: seq<Object>): seq<Item> {
    if objects == [] then []
    else
      var n := |objects| - 1;
      ItemsOf(cfg, bucket, objects[..n])
      + if cfg.supported(objects[n].key) then [ItemOf(cfg, bucket, objects[n])] else []
  }

  /** All supported files of all pages. */
  function Discovered(cfg: Config, bucket: string, pages: seq<seq<Object>>): seq<Item> {
    if pages == [] then []
    else Discovered(cfg, bucket, pages[..|pages| - 1]) + ItemsOf(cfg, bucket, pages[|pages| - 1])
  }

  function Uris(items: seq<Item>): (r: seq<string>)
    ensures |r| == |items|
  {
    seq(|items|, i requires 0 <= i < |items| => items[i].uri)
  }

  /** The part of a path before its first slash, if it has one. */
  function FirstSegment(path: string): Option<string> {
    if path == "" then None
    else if path[0] == '/' then Some("")
    else
      match FirstSegment(path[1..])
      case Some(rest) => Some([path[0]] + rest)
      case None => None
  }

  /** `_derive_document_type`. */
  function DocumentType(cfg: Config, key: string, prefix: string): string {
    var relative := if prefix <= key then key[|prefix|..] else key;
    match FirstSegment(relative)
    case Some(segment) => if segment != "" then cfg.lower(segment) else "general"
    case None => "general"
  }

  /** Whether a file is to be ingested: unknown, failed, pending, stuck in INDEXING for too long, or changed
      since it was last indexed. */
  predicate ShouldIngest(existing: Option<DocumentRecord>, lastModified: int, staleSeconds: nat, now: int) {
    match existing
    case None => true
    case Some(doc) =>
      match doc.status
      case Indexing => IsStale(doc, staleSeconds, now)
      case Failed => true
      case Pending => true
      case Indexed => doc.s3LastModified.Some? && lastModified > doc.s3LastModified.value
  }

  function JobOf(cfg: Config, existing: Option<DocumentRecord>, item: Item, prefix: string): Job {
    Job(if existing.Some? then existing.value.id else cfg.docIdOf(item.uri),
        item.uri, "vi", DocumentType(cfg, item.key, prefix), Some(item.lastModified), Some(item.fileName))
  }

  function Lookup(found: map<string, DocumentRecord>, uri: string): Option<DocumentRecord> {
    if uri in found then Some(found[uri]) else None
  }

  function JobsOf(cfg: Config, found: map<string, DocumentRecord>, items: seq<Item>, prefix: string, now: int): seq<Job> {
    if items == [] then []
    else
      var item := items[|items| - 1];
      var existing := Lookup(found, item.uri);
      JobsOf(cfg, found, items[..|items| - 1], prefix, now)
      + if ShouldIngest(existing, item.lastModified, cfg.staleSeconds, now) then [JobOf(cfg, existing, item, prefix)] else []
  }

  function WantedOf(items: seq<Item>): set<string> { set p | p in Uris(items) }

  /** What one scan asks for. */
  function ScanJobs(cfg: Config, docs: Documents, items: seq<Item>, prefix: string, now: int): seq<Job>
    requires forall k :: k in docs.order ==> k in docs.vals
  {
    JobsOf(cfg, ByPath(docs.Values(), WantedOf(items)), items, prefix, now)
  }

  // ---- document types, by example ----

  lemma {:induction false} FirstSegmentOf(segment: string, rest: string)
    requires '/' !in segment
    ensures FirstSegment(segment + "/" + rest) == Some(segment)
    ensures FirstSegment(segment) == None
  {
    var path := segment + "/" + rest;
    if segment == "" {
      assert path == "/" + rest;
    } else {
      assert path[1..] == segment[1..] + "/" + rest;
      FirstSegmentOf(segment[1..], rest);
      assert path[0] == segment[0] && [segment[0]] + segment[1..] == segment;
    }
  }

  /** A file in a directory below the prefix has that directory's name as its type, one directly below it is
      "general". */
  lemma DocumentTypeOf(cfg: Config, prefix: string, segment: string, rest: string)
    requires '/' !in segment && segment != ""
    ensures DocumentType(cfg, prefix + segment + "/" + rest, prefix) == cfg.lower(segment)
    ensures DocumentType(cfg, prefix + segment, prefix) == "general"
  {
    FirstSegmentOf(segment, rest);
    assert (prefix + segment + "/" + rest)[|prefix|..] == segment + "/" + rest;
    assert (prefix + segment)[|prefix|..] == segment;
  }

  /** A file directly in a nameless directory has no type of its own either; and a file that is not below the prefix is
      typed by its whole key. */
  lemma DocumentTypeElse(cfg: Config, prefix: string, rest: string, key: string)
    requires !(prefix <= key)
    ensures DocumentType(cfg, prefix + "/" + rest, prefix) == "general"
    ensures DocumentType(cfg, key, prefix) == DocumentType(cfg, key, "")
  {
    assert (prefix + "/" + rest)[|prefix|..] == "/" + rest;
    assert key[0..] == key;
  }

  lemma JobsOfNext(cfg: Config, found: map<string, DocumentRecord>, items: seq<Item>, i: nat, prefix: string, now: int)
    requires i < |items|
    ensures JobsOf(cfg, found, items[..i + 1], prefix, now)
            == JobsOf(cfg, found, items[..i], prefix, now)
               + var existing := Lookup(found, items[i].uri);
                 if ShouldIngest(existing, items[i].lastModified, cfg.staleSeconds, now)
                 then [JobOf(cfg, existing, items[i], prefix)] else []
  {
    assert items[..i + 1][..i] == items[..i];
  }

  class S3Scanner {
    const cfg: Config
    const metadataStore: InMemoryMetadataStore

    constructor (cfg: Config, metadataStore: InMemoryMetadataStore)
      ensures this.cfg == cfg && this.metadataStore == metadataStore
    {
      this.cfg := cfg;
      this.metadataStore := metadataStore;
    }

    method Discover(bucket: string, pages: seq<seq<Object>>) returns (discovered: seq<Item>)
      ensures discovered == Discovered(cfg, bucket, pages)
    {
      discovered := [];
      for p := 0 to |pages|
        invariant discovered == Discovered(cfg, bucket, pages[..p])
      {
        assert pages[..p + 1][..p] == pages[..p];
        var page := pages[p];
        ghost var before := discovered;
        for o := 0 to |page|
          invariant discovered == before + ItemsOf(cfg, bucket, page[..o])
        {
          assert page[..o + 1][..o] == page[..o];
          if !cfg.supported(page[o].key) {
            continue;
          }
          discovered := discovered + [ItemOf(cfg, bucket, page[o])];
        }
        assert page[..|page|] == page;
      }
      assert pages[..|pages|] == pages;
    }

    /** `scan`; without a client or a listing it asks for nothing. */
    method Scan(bucket: string, prefix: string, listing: Option<seq<seq<Object>>>, now: int) returns (jobs: seq<Job>)
      requires metadataStore.documents.Valid()
      ensures jobs == if listing.None? then []
                      else ScanJobs(cfg, metadataStore.documents, Discovered(cfg, bucket, listing.value), prefix, now)
    {
      if listing.None? {
        return [];
      }
      jobs := ScanPages(bucket, prefix, listing.value, now);
    }

    method ScanPages(bucket: string, prefix: string, pages: seq<seq<Object>>, now: int) returns (jobs: seq<Job>)
      requires metadataStore.documents.Valid()
      ensures jobs == ScanJobs(cfg, metadataStore.documents, Discovered(cfg, bucket, pages), prefix, now)
    {
      var discovered := Discover(bucket, pages);
      var existingByPath := metadataStore.GetByFilePaths(Uris(discovered));
      jobs := [];
      for i := 0 to |discovered|
        invariant jobs == JobsOf(cfg, existingByPath, discovered[..i], prefix, now)
      {
        JobsOfNext(cfg, existingByPath, discovered, i, prefix, now);
        var item := discovered[i];
        if item.uri !in existingByPath {
          jobs := jobs + [JobOf(cfg, None, item, prefix)];
          continue;
        }
        var existing := existingByPath[item.uri];
        if existing.status.Indexing? && !IsStale(existing, cfg.staleSeconds, now) {
          continue;
        }
        if existing.status in {Failed, Pending} || IsStale(existing, cfg.staleSeconds, now) {
          jobs := jobs + [JobOf(cfg, Some(existing), item, prefix)];
          continue;
        }
        if existing.s3LastModified.Some? && item.lastModified > existing.s3LastModified.value {
          jobs := jobs + [JobOf(cfg, Some(existing), item, prefix)];
        }
      }
      assert discovered[..|discovered|] == discovered;
    }
  }
}
