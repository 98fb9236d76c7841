/**
 * Plain JavaScript objects with string values, as the importers and the
 * exporter see them: an ordered list of properties. `Object.keys` and
 * `Object.values` follow that order; assigning to an existing key
 * overwrites it where it stands, assigning to a new key appends it, and
 * `delete` removes it.
 */
module Records {
  import opened Js
  import opened Seqs

  datatype Property = Property(key: string, value: string)

  type Record = seq<Property>

  function KeyOf(p: Property): string { p.key }
  function ValueOf(p: Property): string { p.value }

  /** `Object.keys(o)`. */
  function Keys(o: Record): (r: seq<string>)
    ensures |r| == |o|
  {
    Map(o, KeyOf)
  }

  /** `Object.values(o)`. */
  function Values(o: Record): (r: seq<string>)
    ensures |r| == |o|
  {
    Map(o, ValueOf)
  }

  /** No key occurs twice, as in every object the program builds. */
  predicate UniqueKeys(o: Record)
  {
    forall i, j :: 0 <= i < j < |o| ==> o[i].key != o[j].key
  }

  /** `o[k]`: `None` when the object has no such key. */
  function Get(o: Record, k: string): Option<string>
  {
    if o == [] then None
    else if o[0].key == k then Some(o[0].value)
    else Get(o[1..], k)
  }

  /** `o[k]` is defined exactly when `k` is a key, and then it is the value of a property with
      that key. */
  lemma {:induction false} GetFacts(o: Record, k: string)
    ensures Get(o, k).Some? <==> exists i :: 0 <= i < |o| && o[i].key == k
    ensures Get(o, k).Some? ==> exists i :: 0 <= i < |o| && o[i] == Property(k, Get(o, k).value)
  {
    if o != [] && o[0].key != k {
      GetFacts(o[1..], k);
      if Get(o, k).Some? {
        var i :| 0 <= i < |o[1..]| && o[1..][i] == Property(k, Get(o, k).value);
        assert o[i + 1] == o[1..][i];
      }
      forall i | 0 <= i < |o| && o[i].key == k
        ensures o[1..][i - 1].key == k
      {
      }
    }
  }

  /** In an object with distinct keys, each property's key reads as that property's value. */
  lemma {:induction false} GetUnique(o: Record, i: nat)
    requires UniqueKeys(o) && i < |o|
    ensures Get(o, o[i].key) == Some(o[i].value)
  {
    if i > 0 {
      assert o[i] == o[1..][i - 1];
      assert UniqueKeys(o[1..]);
      GetUnique(o[1..], i - 1);
    }
  }

  /** `o[k] = v`, in place when `k` is already a key, appended otherwise. */
  function Set(o: Record, k: string, v: string): (r: Record)
    ensures Keys(r) == if k in Keys(o) then Keys(o) else Keys(o) + [k]
  {
    if o == [] then [Property(k, v)]
    else if o[0].key == k then [Property(k, v)] + o[1..]
    else [o[0]] + Set(o[1..], k, v)
  }

  /** `delete o[k]`. */
  function Delete(o: Record, k: string): (r: Record)
    ensures |r| <= |o|
    ensures forall i :: 0 <= i < |r| ==> r[i].key != k && r[i] in o
  {
    if o == [] then []
    else if o[0].key == k then Delete(o[1..], k)
    else [o[0]] + Delete(o[1..], k)
  }

  /** Reading a key right after assigning it gives the assigned value; every other key reads as before. */
  lemma {:induction false} GetSet(o: Record, k: string, v: string, k': string)
    ensures Get(Set(o, k, v), k') == if k' == k then Some(v) else Get(o, k')
  {
    if o != [] && o[0].key != k {
      GetSet(o[1..], k, v, k');
    }
  }

  /** After `delete o[k]` the key is gone and every other key reads as before. */
  lemma {:induction false} GetDelete(o: Record, k: string, k': string)
    ensures Get(Delete(o, k), k') == if k' == k then None else Get(o, k')
  {
    if o != [] {
      GetDelete(o[1..], k, k');
    }
  }

  lemma {:induction false} SetUnique(o: Record, k: string, v: string)
    requires UniqueKeys(o)
    ensures UniqueKeys(Set(o, k, v))
  {
    var r := Set(o, k, v);
    assert forall i :: 0 <= i < |r| ==> r[i].key == Keys(r)[i];
    assert forall i :: 0 <= i < |o| ==> o[i].key == Keys(o)[i];
  }

  lemma {:induction false} DeleteUnique(o: Record, k: string)
    requires UniqueKeys(o)
    ensures UniqueKeys(Delete(o, k))
  {
    if o != [] {
      var tail := o[1..];
      DeleteUnique(tail, k);
      var rest := Delete(tail, k);
      forall i | 0 <= i < |rest|
        ensures rest[i].key != o[0].key
      {
        var j :| 0 <= j < |tail| && tail[j] == rest[i];
        assert tail[j] == o[j + 1];
      }
    }
  }

  /** `{ ...base, ...props }` restricted to the keys of `props`: assigns every property of
      `props` to `base` in order. */
  function Spread(base: Record, props: Record): (r: Record)
    decreases |props|
  {
    if props == [] then base
    else Spread(Set(base, props[0].key, props[0].value), props[1..])
  }

  /** Spreading an object with distinct keys: its own keys take its values, the others keep the base's. */
  lemma {:induction false} GetSpread(base: Record, props: Record, k: string)
    requires UniqueKeys(props)
    ensures Get(Spread(base, props), k) == if Get(props, k).Some? then Get(props, k) else Get(base, k)
    decreases |props|
  {
    if props != [] {
      var head, rest := props[0], props[1..];
      var b := Set(base, head.key, head.value);
      assert UniqueKeys(rest);
      GetSpread(b, rest, k);
      GetSet(base, head.key, head.value, k);
      forall i | 0 <= i < |rest|
        ensures rest[i].key != head.key
      {
        assert rest[i] == props[i + 1];
      }
      GetFacts(rest, head.key);
    }
  }

  lemma {:induction false} SpreadUnique(base: Record, props: Record)
    requires UniqueKeys(base)
    ensures UniqueKeys(Spread(base, props))
    decreases |props|
  {
    if props != [] {
      SetUnique(base, props[0].key, props[0].value);
      SpreadUnique(Set(base, props[0].key, props[0].value), props[1..]);
    }
  }
}
