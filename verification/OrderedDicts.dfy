/** Python's insertion-ordered dictionaries (`dict` and `OrderedDict`) as values. */
module OrderedDicts {
  import opened Sequences

  datatype OrderedDict<K(==, !new), V> = OrderedDict(order: seq<K>, vals: map<K, V>) {

    ghost predicate Valid() {
      && Distinct(order)
      && forall k :: k in order <==> k in vals
    }

    function Size(): nat { |order| }

    function Get(k: K): Option<V> {
      if k in vals then Some(vals[k]) else None
    }

    /** `d[k] = v`: a present key keeps its position. */
    function Set(k: K, v: V): OrderedDict<K, V> {
      OrderedDict(if k in vals then order else order + [k], vals[k := v])
    }

    function MoveToEnd(k: K): OrderedDict<K, V>
      requires k in vals
    {
      OrderedDict(Without(order, k) + [k], vals)
    }

    /** `popitem(last=False)`. */
    function PopFirst(): OrderedDict<K, V>
      requires order != []
    {
      OrderedDict(order[1..], vals - {order[0]})
    }

    function Delete(k: K): OrderedDict<K, V> {
      OrderedDict(Without(order, k), vals - {k})
    }

    /** `list(d.values())`. */
    function Values(): (vs: seq<V>)
      requires forall k :: k in order ==> k in vals
      ensures |vs| == |order|
      ensures forall i :: 0 <= i < |vs| ==> vs[i] == vals[order[i]]
    {
      seq(|order|, i requires 0 <= i < |order| => vals[order[i]])
    }
  }

  function Empty<K(==, !new), V>(): OrderedDict<K, V> { OrderedDict([], map[]) }

  lemma SetValid<K(!new), V>(d: OrderedDict<K, V>, k: K, v: V)
    requires d.Valid()
    ensures d.Set(k, v).Valid()
  {
    if k !in d.vals {
      var o := d.order + [k];
      assert forall i :: 0 <= i < |d.order| ==> o[i] == d.order[i] && o[i] != k;
    }
  }

  lemma MoveToEndValid<K(!new), V>(d: OrderedDict<K, V>, k: K)
    requires d.Valid() && k in d.vals
    ensures d.MoveToEnd(k).Valid()
    ensures d.MoveToEnd(k).Size() == d.Size()
  {
    WithoutDistinct(d.order, k);
    var w := Without(d.order, k);
    assert forall i :: 0 <= i < |w| ==> w[i] in w;
  }

  lemma PopFirstValid<K(!new), V>(d: OrderedDict<K, V>)
    requires d.Valid() && d.order != []
    ensures d.PopFirst().Valid()
  {
    forall k ensures k in d.PopFirst().order <==> k in d.PopFirst().vals {
      if k in d.order[1..] {
        assert k in d.order && k != d.order[0];
      }
      if k in d.order && k != d.order[0] {
        var i :| 0 <= i < |d.order| && d.order[i] == k;
        assert d.order[1..][i - 1] == k;
      }
    }
  }

  lemma DeleteValid<K(!new), V>(d: OrderedDict<K, V>, k: K)
    requires d.Valid()
    ensures d.Delete(k).Valid()
  {
    WithoutDistinct(d.order, k);
  }
}
