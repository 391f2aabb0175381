/** `AISectionEmbedder.embed_sections` of app/infrastructure/ai/embedder.py: the vectors `embed_batch`
    returned for the captions are written into the sections, in place. */
module SectionEmbedders {
  import opened Sequences
  import opened Sections
  import opened BatchProtocol
  import opened BatchInvariants
  import opened BatchTheorems

  datatype EmbedError = WrongCount | WrongDimension(sectionId: string)

  function Captions(ss: seq<Section>): (r: seq<string>)
    ensures |r| == |ss|
    ensures forall k :: 0 <= k < |ss| ==> r[k] == ss[k].caption
  {
    seq(|ss|, k requires 0 <= k < |ss| => ss[k].caption)
  }

  function WithVector(s: Section, v: Vector, model: string): Section {
    s.(embedding := v, metadata := s.metadata["embedding_model" := TextMeta(model)])
  }

  /** The first `n` sections with their vectors, the others as they were. */
  function EmbeddedUpTo(ss: seq<Section>, vectors: seq<Vector>, n: nat, model: string): (r: seq<Section>)
    requires n <= |ss| == |vectors|
    ensures |r| == |ss|
  {
    seq(|ss|, k requires 0 <= k < |ss| => if k < n then WithVector(ss[k], vectors[k], model) else ss[k])
  }

  /** `n` is the first position whose vector has the wrong dimension, or the number of vectors. */
  ghost predicate FirstWrong(vectors: seq<Vector>, dim: nat, n: nat) {
    && n <= |vectors|
    && (forall k :: 0 <= k < n ==> |vectors[k]| == dim)
    && (n < |vectors| ==> |vectors[n]| != dim)
  }

  /** All sections get their vectors, or the call raises; a wrong dimension is noticed only after the
      sections before it were changed. */
  ghost predicate EmbedOutcome(was: seq<Section>, vectors: seq<Vector>, dim: nat, model: string,
                               error: Option<EmbedError>, now: seq<Section>)
  {
    if was == [] then error.None? && now == []
    else if |vectors| != |was| then error == Some(WrongCount) && now == was
    else
      exists n: nat :: FirstWrong(vectors, dim, n) && now == EmbeddedUpTo(was, vectors, n, model)
                  && error == if n < |was| then Some(WrongDimension(was[n].id)) else None
  }

  method EmbedSections(sections: array<Section>, embeddings: seq<Vector>, dim: nat, model: string)
    returns (error: Option<EmbedError>)
    modifies sections
    ensures EmbedOutcome(old(sections[..]), embeddings, dim, model, error, sections[..])
  {
    if sections.Length == 0 {
      return None;
    }
    if |embeddings| != sections.Length {
      return Some(WrongCount);
    }
    ghost var was := sections[..];
    for k := 0 to sections.Length
      invariant sections[..] == EmbeddedUpTo(was, embeddings, k, model)
      invariant forall j :: 0 <= j < k ==> |embeddings[j]| == dim
    {
      var section := sections[k];
      assert section == sections[..][k] == was[k];
      if |embeddings[k]| != dim {
        assert FirstWrong(embeddings, dim, k);
        return Some(WrongDimension(section.id));
      }
      sections[k] := WithVector(section, embeddings[k], model);
      assert sections[..] == EmbeddedUpTo(was, embeddings, k, model)[k := WithVector(section, embeddings[k], model)];
    }
    assert FirstWrong(embeddings, dim, sections.Length);
    error := None;
  }

  /** Success means every vector has the configured dimension, and each section then differs from what it
      was in its vector and the model name alone. */
  lemma SuccessIff(was: seq<Section>, vectors: seq<Vector>, dim: nat, model: string,
                   error: Option<EmbedError>, now: seq<Section>)
    requires EmbedOutcome(was, vectors, dim, model, error, now)
    ensures error.None? <==>
            was == [] || (|vectors| == |was| && forall k :: 0 <= k < |vectors| ==> |vectors[k]| == dim)
    ensures error.None? ==> |now| == |was| && forall k :: 0 <= k < |was| ==>
              now[k] == was[k].(embedding := vectors[k], metadata := was[k].metadata["embedding_model" := TextMeta(model)])
  {
    if was != [] && |vectors| == |was| {
      var n: nat :| FirstWrong(vectors, dim, n) && now == EmbeddedUpTo(was, vectors, n, model)
               && error == if n < |was| then Some(WrongDimension(was[n].id)) else None;
      if n < |was| {
        assert |vectors[n]| != dim;
      } else {
        assert forall k :: 0 <= k < |was| ==> |vectors[k]| == dim;
      }
    }
  }

  /** However the embedding calls of several jobs were batched together, each section ends up with a vector
      the provider returned for that section's own caption. */
  lemma SectionsGetTheirOwnVectors(cfg: Config, es: seq<Event>, s: State, was: seq<Section>, ids: seq<nat>,
                                   vectors: seq<Vector>, dim: nat, model: string, now: seq<Section>)
    requires Reached(cfg, es, s) && Gathers(s, Captions(was), ids, vectors)
    requires EmbedOutcome(was, vectors, dim, model, None, now)
    ensures |now| == |was|
    ensures forall k :: 0 <= k < |was| ==>
              && Provided(s.log.answers, was[k].caption, now[k].embedding)
              && |now[k].embedding| == dim
              && now[k].id == was[k].id && now[k].content == was[k].content && now[k].caption == was[k].caption
  {
    EmbedBatchKeepsOrder(cfg, es, s, Captions(was), ids, vectors);
    SuccessIff(was, vectors, dim, model, None, now);
    forall k | 0 <= k < |was|
      ensures Provided(s.log.answers, was[k].caption, now[k].embedding) && |now[k].embedding| == dim
    {
      assert Provided(s.log.answers, Captions(was)[k], vectors[k]);
    }
  }
}
