/** Where the vectors in the store come from: the batch embedder and the ingest system together. */
module StoredVectors {
  import opened Sequences
  import opened Sections
  import opened VectorStores
  import opened MetadataStores
  import opened IngestRuns
  import opened IngestInvariants
  import opened IngestSystems
  import B = BatchProtocol
  import BI = BatchInvariants
  import BT = BatchTheorems
  import SectionEmbedders

  // ---- the embedder's answers stay ----

  lemma StepKeepsProvided(cfg: B.Config, s: B.State, e: B.Event, text: string, v: Vector)
    requires 0 < cfg.cacheSize && B.Enabled(s, e) && BI.Provided(s.log.answers, text, v)
    ensures BI.Provided(B.Step(cfg, s, e).log.answers, text, v)
  {
    if e.EvAnswered? {
      BI.ProvidedStays(s.log.answers, [B.Answer(B.Texts(s.flight.value.batch), e.vectors)], text, v);
    }
  }

  lemma {:induction false} RunKeepsProvided(cfg: B.Config, s: B.State, es: seq<B.Event>, text: string, v: Vector)
    requires 0 < cfg.cacheSize && BI.Provided(s.log.answers, text, v) && B.Exec(cfg, s, es).Some?
    ensures BI.Provided(B.Exec(cfg, s, es).value.log.answers, text, v)
    decreases |es|
  {
    if es != [] {
      StepKeepsProvided(cfg, s, es[0], text, v);
      RunKeepsProvided(cfg, B.Step(cfg, s, es[0]), es[1..], text, v);
    }
  }

  lemma {:induction false} ExecInParts(cfg: B.Config, s: B.State, es: seq<B.Event>, n: nat)
    requires 0 < cfg.cacheSize && n <= |es| && B.Exec(cfg, s, es).Some?
    ensures B.Exec(cfg, s, es[..n]).Some?
    ensures B.Exec(cfg, s, es) == B.Exec(cfg, B.Exec(cfg, s, es[..n]).value, es[n..])
    decreases |es|
  {
    if n == 0 {
      assert es[..0] == [] && es[0..] == es;
    } else {
      assert es[..n][1..] == es[1..][..n - 1] && es[1..][n - 1..] == es[n..];
      ExecInParts(cfg, B.Step(cfg, s, es[0]), es[1..], n - 1);
    }
  }

  /** At some moment of the embedder's run `embed_batch` has returned these vectors for these texts. */
  ghost predicate Gathered(cfg: B.Config, es: seq<B.Event>, texts: seq<string>, vectors: seq<Vector>) {
    exists n: nat, s: B.State, ids: seq<nat> :: n <= |es| && B.Reached(cfg, es[..n], s) && BT.Gathers(s, texts, ids, vectors)
  }

  lemma GatheredWasProvided(cfg: B.Config, es: seq<B.Event>, end: B.State, texts: seq<string>, vectors: seq<Vector>)
    requires B.Reached(cfg, es, end) && Gathered(cfg, es, texts, vectors)
    ensures |texts| == |vectors| && forall k :: 0 <= k < |texts| ==> BI.Provided(end.log.answers, texts[k], vectors[k])
  {
    var n: nat, s: B.State, ids: seq<nat> :| n <= |es| && B.Reached(cfg, es[..n], s) && BT.Gathers(s, texts, ids, vectors);
    BT.EmbedBatchKeepsOrder(cfg, es[..n], s, texts, ids, vectors);
    ExecInParts(cfg, B.Init(), es, n);
    forall k | 0 <= k < |texts|
      ensures BI.Provided(end.log.answers, texts[k], vectors[k])
    {
      RunKeepsProvided(cfg, s, es[n..], texts[k], vectors[k]);
    }
  }

  // ---- from the embedding stage into the store ----

  /** Every section has a vector that `given` allows for its caption. */
  ghost predicate OwnVectors(ss: seq<Section>, given: (string, Vector) -> bool) {
    forall k :: 0 <= k < |ss| ==> given(ss[k].caption, ss[k].embedding)
  }

  /** A run that embeds is answered with vectors allowed for its captions. */
  ghost predicate HonestStep(s: System, e: Event, given: (string, Vector) -> bool) {
    e.Advance? && e.i < |s.runs| && s.runs[e.i].pc.Embedding? && e.a.Go? ==>
      var captions := SectionEmbedders.Captions(s.runs[e.i].sections);
      |e.a.supply.vectors| == |captions| ==> forall k :: 0 <= k < |captions| ==> given(captions[k], e.a.supply.vectors[k])
  }

  ghost predicate Honest(cfg: Config, s: System, es: seq<Event>, given: (string, Vector) -> bool)
    decreases |es|
  {
    es != [] && Enabled(s, es[0]) ==> HonestStep(s, es[0], given) && Honest(cfg, Step(cfg, s, es[0]), es[1..], given)
  }

  ghost predicate RunOwn(r: Run, given: (string, Vector) -> bool) {
    7 <= Rank(r.pc) <= 14 ==> OwnVectors(r.sections, given)
  }

  ghost predicate AllOwn(s: System, given: (string, Vector) -> bool) {
    && (forall i :: 0 <= i < |s.runs| ==> RunOwn(s.runs[i], given))
    && (forall x :: x in s.done ==> OwnVectors(s.done[x].sections, given))
  }

  lemma EmbedOwn(cfg: Settings, r: Run, vectors: seq<Vector>, given: (string, Vector) -> bool)
    requires |vectors| == |r.sections| ==> forall k :: 0 <= k < |r.sections| ==> given(r.sections[k].caption, vectors[k])
    ensures RunOwn(VectorsPut(cfg, r, vectors), given)
  {
  }

  lemma CompletionOwn(cfg: Settings, r: Run, given: (string, Vector) -> bool)
    requires OwnVectors(r.sections, given)
    ensures OwnVectors(Completion(cfg, r).sections, given)
  {
    IndexableKeeps(cfg, r);
  }

  lemma MovesOwn(r: Run, r': Run, given: (string, Vector) -> bool)
    requires RunOwn(r, given) && (Rank(r'.pc) < 7 || Rank(r'.pc) > 14 || (7 <= Rank(r.pc) <= 14 && r'.sections == r.sections))
    ensures RunOwn(r', given)
  {
  }

  lemma StageMoves(cfg: Settings, r: Run, supply: Supply)
    requires 1 <= Rank(r.pc) <= 5
    ensures Rank(Stage(cfg, r, supply).pc) < 7 || Rank(Stage(cfg, r, supply).pc) > 14
  {
  }

  lemma CallMoves(cfg: Settings, w: World, r: Run, now: int, supply: Supply)
    requires !r.pc.Over? && !(1 <= Rank(r.pc) <= 6)
    ensures var r' := Return(cfg, w, Noted(w, r, now, 1), now, supply);
            r'.sections == r.sections && (r.pc.Claiming? ==> Rank(r'.pc) == 1 || r'.pc.Over?) && (Rank(r.pc) > 14 ==> Rank(r'.pc) > 14)
  {
  }

  lemma RunStepOwn(cfg: Settings, w: World, r: Run, a: Action, given: (string, Vector) -> bool)
    requires RunEnabled(r, a) && RunOwn(r, given)
    requires r.pc.Embedding? && a.Go? && |a.supply.vectors| == |r.sections| ==>
               forall k :: 0 <= k < |r.sections| ==> given(r.sections[k].caption, a.supply.vectors[k])
    ensures RunOwn(RunStep(cfg, w, r, a).r, given)
  {
    var r' := RunStep(cfg, w, r, a).r;
    if a.Go? && 1 <= Rank(r.pc) <= 6 {
      StageIsQuiet(cfg, w, r, a.now, a.supply);
      if r.pc.Embedding? {
        EmbedOwn(cfg, r, a.supply.vectors, given);
      } else {
        StageMoves(cfg, r, a.supply);
        MovesOwn(r, r', given);
      }
    } else {
      if a.Go? { CallMoves(cfg, w, r, a.now, a.supply); }
      MovesOwn(r, r', given);
    }
  }

  lemma CaptionsGiven(s: System, e: Event, given: (string, Vector) -> bool)
    requires HonestStep(s, e, given) && e.Advance? && e.i < |s.runs| && s.runs[e.i].pc.Embedding? && e.a.Go?
    requires |e.a.supply.vectors| == |s.runs[e.i].sections|
    ensures forall k :: 0 <= k < |s.runs[e.i].sections| ==> given(s.runs[e.i].sections[k].caption, e.a.supply.vectors[k])
  {
    var ss := s.runs[e.i].sections;
    forall k | 0 <= k < |ss|
      ensures given(ss[k].caption, e.a.supply.vectors[k])
    {
      assert SectionEmbedders.Captions(ss)[k] == ss[k].caption;
    }
  }

  lemma StepOwn(cfg: Config, s: System, e: Event, given: (string, Vector) -> bool)
    requires Enabled(s, e) && AllOwn(s, given) && HonestStep(s, e, given)
    ensures AllOwn(Step(cfg, s, e), given)
  {
    if e.Advance? {
      var r := s.runs[e.i];
      if r.pc.Embedding? && e.a.Go? && |e.a.supply.vectors| == |r.sections| { CaptionsGiven(s, e, given); }
      RunStepOwn(cfg.settings, s.w, r, e.a, given);
      if MarksIndexed(r, e.a) { CompletionOwn(cfg.settings, r, given); }
    }
  }

  lemma {:induction false} RunKeepsOwn(cfg: Config, s: System, es: seq<Event>, given: (string, Vector) -> bool)
    requires AllOwn(s, given) && Honest(cfg, s, es, given)
    ensures Exec(cfg, s, es).Some? ==> AllOwn(Exec(cfg, s, es).value, given)
    decreases |es|
  {
    if es != [] && Enabled(s, es[0]) {
      StepOwn(cfg, s, es[0], given);
      RunKeepsOwn(cfg, Step(cfg, s, es[0]), es[1..], given);
    }
  }

  /** Every embedding step of the run is answered by `embed_batch` of the shared embedder. */
  ghost predicate FromEmbedder(cfg: Config, s: System, es: seq<Event>, bcfg: B.Config, bes: seq<B.Event>)
    decreases |es|
  {
    es != [] && Enabled(s, es[0]) ==>
      && (es[0].Advance? && s.runs[es[0].i].pc.Embedding? && es[0].a.Go? ==>
            Gathered(bcfg, bes, SectionEmbedders.Captions(s.runs[es[0].i].sections), es[0].a.supply.vectors))
      && FromEmbedder(cfg, Step(cfg, s, es[0]), es[1..], bcfg, bes)
  }

  lemma {:induction false} EmbedderIsHonest(cfg: Config, s: System, es: seq<Event>, bcfg: B.Config, bes: seq<B.Event>,
                                            end: B.State, given: (string, Vector) -> bool)
    requires B.Reached(bcfg, bes, end) && FromEmbedder(cfg, s, es, bcfg, bes)
    requires forall t, v :: BI.Provided(end.log.answers, t, v) ==> given(t, v)
    ensures Honest(cfg, s, es, given)
    decreases |es|
  {
    if es != [] && Enabled(s, es[0]) {
      var e := es[0];
      if e.Advance? && s.runs[e.i].pc.Embedding? && e.a.Go? {
        GatheredWasProvided(bcfg, bes, end, SectionEmbedders.Captions(s.runs[e.i].sections), e.a.supply.vectors);
      }
      EmbedderIsHonest(cfg, Step(cfg, s, e), es[1..], bcfg, bes, end, given);
    }
  }

  /** However documents were ingested together and however their captions were batched together: the sections
      of an INDEXED document carry vectors the provider returned for their own captions. */
  lemma StoredVectorsAreTheirOwn(cfg: Config, es: seq<Event>, s: System, x: string, bcfg: B.Config, bes: seq<B.Event>, end: B.State)
    requires Reached(cfg, es, s) && B.Reached(bcfg, bes, end) && FromEmbedder(cfg, Boot(cfg), es, bcfg, bes)
    requires Has(s.w.docs.Get(x), Indexed)
    ensures s.w.vectors.Valid()
    ensures forall k :: 0 <= k < |SectionsIn(s.w.vectors, x)| ==>
              BI.Provided(end.log.answers, SectionsIn(s.w.vectors, x)[k].caption, SectionsIn(s.w.vectors, x)[k].embedding)
  {
    var given: (string, Vector) -> bool := (t, v) => BI.Provided(end.log.answers, t, v);
    EmbedderIsHonest(cfg, Boot(cfg), es, bcfg, bes, end, given);
    RunKeepsOwn(cfg, Boot(cfg), es, given);
    ReachedInv(cfg, es, s);
    assert Consistent(cfg.settings, ViewOf(s.w, x), s.done, x);
    var ss := SectionsIn(s.w.vectors, x);
    assert OwnVectors(ss, given);
    forall k | 0 <= k < |ss|
      ensures BI.Provided(end.log.answers, ss[k].caption, ss[k].embedding)
    {
      assert given(ss[k].caption, ss[k].embedding);
    }
  }
}
