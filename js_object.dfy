/** Plain JavaScript objects with string keys, as insertion-ordered lists of
    entries. `Object.entries` lists keys in insertion order, and the
    spread `{ ...o, ...p }` keeps every key of `o` in place (overwriting its
    value when `p` has it) and appends the keys only `p` has, in `p`'s order.
    Both orders are visible in the report, so the model keeps them. */
module JsObject {
  import opened Js

  type Obj<V> = seq<(string, V)>

  function Keys<V>(o: Obj<V>): (ks: seq<string>)
    ensures |ks| == |o| && forall i :: 0 <= i < |o| ==> ks[i] == o[i].0
  {
    if o == [] then [] else [o[0].0] + Keys(o[1..])
  }

  /** A JavaScript object never holds a key twice. */
  predicate UniqueKeys<V>(o: Obj<V>) {
    forall i, j :: 0 <= i < j < |o| ==> o[i].0 != o[j].0
  }

  /** `o[k]`, `None` standing for a missing key. */
  function Lookup<V>(o: Obj<V>, k: string): (r: Option<V>)
    ensures r.Some? <==> k in Keys(o)
    ensures r.Some? ==> exists i :: 0 <= i < |o| && o[i] == (k, r.value)
  {
    if o == [] then None
    else if o[0].0 == k then Some(o[0].1)
    else Lookup(o[1..], k)
  }

  predicate HasKey<V>(o: Obj<V>, k: string) {
    Lookup(o, k).Some?
  }

  /** `o[k]` on an object of JavaScript values: `undefined` when missing. */
  function Get(o: Obj<JsValue>, k: string): JsValue {
    Lookup(o, k).GetOr(Undefined)
  }

  /** `{ ...o, [k]: v }`. */
  function Set<V>(o: Obj<V>, k: string, v: V): (r: Obj<V>)
    ensures forall j :: Lookup(r, j) == if j == k then Some(v) else Lookup(o, j)
    ensures Keys(r) == if k in Keys(o) then Keys(o) else Keys(o) + [k]
  {
    if o == [] then [(k, v)]
    else if o[0].0 == k then [(k, v)] + o[1..]
    else [o[0]] + Set(o[1..], k, v)
  }

  /** `{ ...o, ...p }`. */
  function Spread<V>(o: Obj<V>, p: Obj<V>): (r: Obj<V>)
    ensures Keys(o) <= Keys(r)
    decreases |p|
  {
    if p == [] then o else Spread(Set(o, p[0].0, p[0].1), p[1..])
  }

  /** A one-key patch is a single `Set`. */
  lemma SpreadOne<V>(o: Obj<V>, k: string, v: V)
    ensures Spread(o, [(k, v)]) == Set(o, k, v)
  {
  }

  lemma {:induction false} UniqueTail<V>(p: Obj<V>)
    requires UniqueKeys(p) && p != []
    ensures UniqueKeys(p[1..]) && p[0].0 !in Keys(p[1..])
  {
    forall i, j | 0 <= i < j < |p[1..]| ensures p[1..][i].0 != p[1..][j].0 {
      assert p[1..][i] == p[i + 1] && p[1..][j] == p[j + 1];
    }
  }

  /** After a spread, a key the patch holds has the patch's value, and every
      other key keeps the value it had. */
  lemma {:induction false} SpreadLookup<V>(o: Obj<V>, p: Obj<V>, j: string)
    requires UniqueKeys(p)
    ensures Lookup(Spread(o, p), j) == if HasKey(p, j) then Lookup(p, j) else Lookup(o, j)
    decreases |p|
  {
    if p != [] {
      UniqueTail(p);
      SpreadLookup(Set(o, p[0].0, p[0].1), p[1..], j);
    }
  }

  /** A spread of two objects is an object: no key appears twice. */
  lemma {:induction false} SpreadUnique<V>(o: Obj<V>, p: Obj<V>)
    requires UniqueKeys(o)
    ensures UniqueKeys(Spread(o, p))
    decreases |p|
  {
    if p != [] {
      SetUnique(o, p[0].0, p[0].1);
      SpreadUnique(Set(o, p[0].0, p[0].1), p[1..]);
    }
  }

  lemma {:induction false} SetUnique<V>(o: Obj<V>, k: string, v: V)
    requires UniqueKeys(o)
    ensures UniqueKeys(Set(o, k, v))
  {
    var r := Set(o, k, v);
    forall i, j | 0 <= i < j < |r| ensures r[i].0 != r[j].0 {
      assert Keys(r)[i] == r[i].0 && Keys(r)[j] == r[j].0;
      if k !in Keys(o) {
        if j == |o| {
          assert Keys(o)[i] == o[i].0;
        } else {
          assert Keys(o)[i] == o[i].0 && Keys(o)[j] == o[j].0;
        }
      } else {
        assert Keys(o)[i] == o[i].0 && Keys(o)[j] == o[j].0;
      }
    }
  }

  /** The keys of `p` that are not among `ks`, each once, in `p`'s order:
      the keys a spread of `p` appends. */
  function NewKeys<V>(ks: seq<string>, p: Obj<V>): seq<string>
    decreases |p|
  {
    if p == [] then []
    else if p[0].0 in ks then NewKeys(ks, p[1..])
    else [p[0].0] + NewKeys(ks + [p[0].0], p[1..])
  }

  /** The keys a patch adds are new and come from the patch. */
  lemma {:induction false} NewKeysFresh<V>(ks: seq<string>, p: Obj<V>)
    ensures forall k :: k in NewKeys(ks, p) ==> k !in ks && k in Keys(p)
    decreases |p|
  {
    if p != [] {
      var k0 := p[0].0;
      assert Keys(p) == [k0] + Keys(p[1..]);
      if k0 in ks {
        NewKeysFresh(ks, p[1..]);
      } else {
        NewKeysFresh(ks + [k0], p[1..]);
      }
    }
  }

  /** One step of a spread: setting the patch's first key and collecting
      the rest of the patch's new keys from there. */
  lemma NewKeysStep<V>(ks: seq<string>, ks': seq<string>, p: Obj<V>)
    requires p != [] && ks' == if p[0].0 in ks then ks else ks + [p[0].0]
    ensures ks' + NewKeys(ks', p[1..]) == ks + NewKeys(ks, p)
  {
    if p[0].0 !in ks {
      var rest := NewKeys(ks', p[1..]);
      assert ks + ([p[0].0] + rest) == (ks + [p[0].0]) + rest;
    }
  }

  /** A spread lists the old keys in place, then the patch's new keys in
      the patch's order. */
  lemma {:induction false} SpreadKeys<V>(o: Obj<V>, p: Obj<V>)
    ensures Keys(Spread(o, p)) == Keys(o) + NewKeys(Keys(o), p)
    decreases |p|
  {
    if p != [] {
      var k, q := p[0].0, p[1..];
      var o' := Set(o, k, p[0].1);
      assert Spread(o, p) == Spread(o', q);
      SpreadKeys(o', q);
      NewKeysStep(Keys(o), Keys(o'), p);
    }
  }

  /** `r` is what `{ ...o, ...p }` yields: every key of `o` keeps its place
      and the patch's new keys follow in the patch's order; a key of the
      patch takes the patch's value, every other key keeps its value. */
  ghost predicate IsSpreadOf<V>(r: Obj<V>, o: Obj<V>, p: Obj<V>) {
    Keys(o) <= Keys(r)
    && Keys(r) == Keys(o) + NewKeys(Keys(o), p)
    && (UniqueKeys(p) ==>
          forall k :: Lookup(r, k) == if HasKey(p, k) then Lookup(p, k) else Lookup(o, k))
  }

  lemma SpreadIsSpreadOf<V>(o: Obj<V>, p: Obj<V>)
    ensures IsSpreadOf(Spread(o, p), o, p)
  {
    SpreadKeys(o, p);
    if UniqueKeys(p) {
      forall k ensures Lookup(Spread(o, p), k) == if HasKey(p, k) then Lookup(p, k) else Lookup(o, k) {
        SpreadLookup(o, p, k);
      }
    }
  }
}
