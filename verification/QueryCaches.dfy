/** The query cache of app/application/search/search_sections.py under any interleaving of threads.
    `_embed_query` is two critical sections under one lock with the provider call between them. */
module QueryCaches {
  import opened Sequences
  import opened OrderedDicts

  type Cache = OrderedDict<string, Vector>

  /** A call of `_embed_query`: at the provider, back with a vector to store, done, or failed. */
  datatype Call = AtProvider(query: string) | ToStore(query: string, v: Vector) | Returned(query: string, v: Vector) | Raised

  datatype State = State(cache: Cache, calls: seq<Call>, answers: seq<(string, Vector)>)

  function Init(): State { State(Empty(), [], []) }

  /** The first critical section. */
  function Lookup(s: State, query: string): State {
    if query in s.cache.vals then
      s.(cache := s.cache.MoveToEnd(query), calls := s.calls + [Returned(query, s.cache.vals[query])])
    else s.(calls := s.calls + [AtProvider(query)])
  }

  /** What the second critical section makes of the cache: the vector goes in first, then the oldest
      entry goes out if there is one too many. */
  function Stored(cache: Cache, size: nat, query: string, v: Vector): Cache {
    var c := cache.Set(query, v);
    if c.Size() > size then c.PopFirst() else c
  }

  datatype Event =
    | EvLookup(query: string)
    | EvAnswered(t: nat, v: Vector)
    | EvRaised(t: nat)
    | EvStore(t: nat)

  predicate Enabled(s: State, e: Event) {
    match e
    case EvLookup(_) => true
    case EvAnswered(t, _) => t < |s.calls| && s.calls[t].AtProvider?
    case EvRaised(t) => t < |s.calls| && s.calls[t].AtProvider?
    case EvStore(t) => t < |s.calls| && s.calls[t].ToStore?
  }

  function Step(size: nat, s: State, e: Event): State
    requires Enabled(s, e)
  {
    match e
    case EvLookup(query) => Lookup(s, query)
    case EvAnswered(t, v) =>
      s.(calls := s.calls[t := ToStore(s.calls[t].query, v)], answers := s.answers + [(s.calls[t].query, v)])
    case EvRaised(t) => s.(calls := s.calls[t := Raised])
    case EvStore(t) =>
      s.(cache := Stored(s.cache, size, s.calls[t].query, s.calls[t].v),
      calls := s.calls[t := Returned(s.calls[t].query, s.calls[t].v)])
  }

  function Exec(size: nat, s: State, es: seq<Event>): Option<State>
    decreases |es|
  {
    if es == [] then Some(s)
    else if Enabled(s, es[0]) then Exec(size, Step(size, s, es[0]), es[1..])
    else None
  }

  ghost predicate CallTraced(c: Call, answers: seq<(string, Vector)>) {
    c.ToStore? || c.Returned? ==> (c.query, c.v) in answers
  }

  ghost predicate Inv(size: nat, s: State) {
    && s.cache.Valid()
    && s.cache.Size() <= size
    && (forall q :: q in s.cache.vals ==> (q, s.cache.vals[q]) in s.answers)
    && (forall t :: 0 <= t < |s.calls| ==> CallTraced(s.calls[t], s.answers))
  }

  lemma StoredKeeps(cache: Cache, size: nat, query: string, v: Vector)
    requires 1 <= size && cache.Valid() && cache.Size() <= size
    ensures Stored(cache, size, query, v).Valid() && Stored(cache, size, query, v).Size() <= size
    ensures query in Stored(cache, size, query, v).vals && Stored(cache, size, query, v).vals[query] == v
    ensures forall q :: q in Stored(cache, size, query, v).vals && q != query ==>
              q in cache.vals && Stored(cache, size, query, v).vals[q] == cache.vals[q]
  {
    SetValid(cache, query, v);
    var c := cache.Set(query, v);
    if c.Size() > size {
      assert c.order == cache.order + [query];
      assert c.order[0] == cache.order[0] && cache.order[0] in cache.order;
      PopFirstValid(c);
    }
  }

  lemma InvKept(size: nat, s: State, e: Event)
    requires 1 <= size && Inv(size, s) && Enabled(s, e)
    ensures Inv(size, Step(size, s, e))
  {
    var s' := Step(size, s, e);
    match e
    case EvLookup(query) =>
      if query in s.cache.vals { MoveToEndValid(s.cache, query); }
    case EvAnswered(t, v) =>
      assert s'.answers[|s.answers|] == (s.calls[t].query, v);
      assert forall a :: a in s.answers ==> a in s'.answers;
    case EvRaised(t) =>
    case EvStore(t) =>
      StoredKeeps(s.cache, size, s.calls[t].query, s.calls[t].v);
      assert CallTraced(s.calls[t], s.answers);
  }

  lemma {:induction false} RunKeepsInv(size: nat, s: State, es: seq<Event>)
    requires 1 <= size && Inv(size, s)
    ensures Exec(size, s, es).Some? ==> Inv(size, Exec(size, s, es).value)
    decreases |es|
  {
    if es != [] && Enabled(s, es[0]) {
      InvKept(size, s, es[0]);
      RunKeepsInv(size, Step(size, s, es[0]), es[1..]);
    }
  }

  /** However threads interleave, the cache stays within its bound and every query is answered, from the
      cache or not, with a vector the provider returned for that very query. */
  lemma QueriesGetTheirOwnVectors(size: nat, es: seq<Event>, s: State, t: nat)
    requires 1 <= size && Exec(size, Init(), es) == Some(s)
    ensures s.cache.Size() <= size && s.cache.Valid()
    ensures t < |s.calls| && s.calls[t].Returned? ==> (s.calls[t].query, s.calls[t].v) in s.answers
  {
    RunKeepsInv(size, Init(), es);
    if t < |s.calls| {
      assert CallTraced(s.calls[t], s.answers);
    }
  }

  /** What a store leaves: a query that was there keeps its place and changes its vector; a new one comes last, and only
      if the cache was full does anything go, the one entry that was first. */
  lemma StoredIs(cache: Cache, size: nat, query: string, v: Vector)
    requires 1 <= size && cache.Valid() && cache.Size() <= size
    ensures var c := Stored(cache, size, query, v);
            && c.order == (if query in cache.vals then cache.order
                           else (if |cache.order| == size then cache.order[1..] else cache.order) + [query])
            && (forall q :: q in c.vals <==> q in c.order)
            && (forall q :: q in c.vals ==> c.vals[q] == if q == query then v else cache.vals[q])
  {
    SetValid(cache, query, v);
    StoredKeeps(cache, size, query, v);
    if query !in cache.vals && |cache.order| == size { assert (cache.order + [query])[1..] == cache.order[1..] + [query]; }
  }

  /** What a thread has stored is served to the next one that asks for it, which makes it the newest entry. */
  lemma StoredIsServedNext(size: nat, es: seq<Event>, s: State, t: nat)
    requires 1 <= size && Exec(size, Init(), es) == Some(s) && Enabled(s, EvStore(t))
    ensures var query, v := s.calls[t].query, s.calls[t].v;
            var s1 := Step(size, s, EvStore(t)); var s2 := Step(size, s1, EvLookup(query));
            && s1.calls[t] == Returned(query, v)
            && s2.calls == s1.calls + [Returned(query, v)]
            && s2.cache.order == Without(s1.cache.order, query) + [query] && s2.cache.vals == s1.cache.vals
  {
    RunKeepsInv(size, Init(), es);
    StoredKeeps(s.cache, size, s.calls[t].query, s.calls[t].v);
  }

  /** A thread goes to the provider exactly when the query is not in the cache. */
  lemma AskedIffNotHeld(size: nat, s: State, query: string)
    ensures var calls := Step(size, s, EvLookup(query)).calls;
            |calls| == |s.calls| + 1 && (calls[|s.calls|].AtProvider? <==> query !in s.cache.vals)
  {
  }
}
