/** The hash-keyed store every registry class shares through `RegistryTrait`. Each registry
    class has its own static `$components` array; here each is one `Registry` object. */
module Registries {
  import opened Php

  /** An md5 hex digest. */
  type Key = string

  class Registry<T> {
    /** The static `$components` array of one registry class. */
    var components: map<Key, T>
    /** `md5( $component )`: the digest of the component's string form, which is its
        JSON encoding. It is left uninterpreted and is not assumed to be injective. */
    const keyOf: T -> Key

    constructor (keyOf: T -> Key)
      ensures components == map[] && this.keyOf == keyOf
    {
      components := map[];
      this.keyOf := keyOf;
    }

    /** `add`: stores the component under its key, replacing whatever had that key. */
    method Add(component: T) returns (id: Key)
      modifies this
      ensures id == keyOf(component)
      ensures components == old(components)[id := component]
      ensures id in old(components) ==> |components| == |old(components)|
      ensures id !in old(components) ==> |components| == |old(components)| + 1
    {
      id := keyOf(component);
      components := components[id := component];
      assert id in old(components) ==> components.Keys == old(components).Keys;
    }

    /** `get`: the component under the key, or null. */
    method Get(key: Key) returns (component: Option<T>)
      ensures component.Some? <==> key in components
      ensures component.Some? ==> component.value == components[key]
    {
      component := if key in components then Some(components[key]) else None;
    }

    /** `remove`: `unset`, which does nothing for an absent key. */
    method Remove(key: Key)
      modifies this
      ensures components == old(components) - {key}
      ensures key !in old(components) ==> components == old(components)
    {
      components := components - {key};
    }

    /** `get_all`: the whole store. */
    method GetAll() returns (all: map<Key, T>)
      ensures all == components
    {
      all := components;
    }
  }

  /** The store after adding the components in order. */
  function AddAll<T>(m: map<Key, T>, xs: seq<T>, keyOf: T -> Key): map<Key, T>
  {
    if xs == [] then m
    else
      var last := xs[|xs| - 1];
      assert xs == xs[..|xs| - 1] + [last];
      AddAll(m, xs[..|xs| - 1], keyOf)[keyOf(last) := last]
  }

  /** The keys of the store are its old keys and those of the added components. */
  lemma {:induction false} AddAllKeys<T>(m: map<Key, T>, xs: seq<T>, keyOf: T -> Key)
    ensures AddAll(m, xs, keyOf).Keys == m.Keys + set x | x in xs :: keyOf(x)
    decreases |xs|
  {
    if xs != [] {
      var init, last := xs[..|xs| - 1], xs[|xs| - 1];
      assert xs == init + [last];
      AddAllKeys(m, init, keyOf);
    }
  }

  lemma AddAllSnoc<T>(m: map<Key, T>, xs: seq<T>, x: T, keyOf: T -> Key)
    ensures AddAll(m, xs + [x], keyOf) == AddAll(m, xs, keyOf)[keyOf(x) := x]
  {
    assert (xs + [x])[..|xs|] == xs;
  }

  /** Adding two batches is adding the first, then the second. */
  lemma {:induction false} AddAllAppend<T>(m: map<Key, T>, xs: seq<T>, ys: seq<T>, keyOf: T -> Key)
    ensures AddAll(m, xs + ys, keyOf) == AddAll(AddAll(m, xs, keyOf), ys, keyOf)
    decreases |ys|
  {
    if ys == [] {
      assert xs + ys == xs;
    } else {
      var init, last := ys[..|ys| - 1], ys[|ys| - 1];
      assert ys == init + [last];
      assert xs + ys == (xs + init) + [last];
      AddAllSnoc(m, xs + init, last, keyOf);
      AddAllAppend(m, xs, init, keyOf);
      AddAllSnoc(AddAll(m, xs, keyOf), init, last, keyOf);
    }
  }

  /** A component added is found under its key unless a later one has the same key. */
  lemma {:induction false} AddAllLastWins<T>(m: map<Key, T>, xs: seq<T>, keyOf: T -> Key, i: nat)
    requires i < |xs|
    requires forall j :: i < j < |xs| ==> keyOf(xs[j]) != keyOf(xs[i])
    ensures keyOf(xs[i]) in AddAll(m, xs, keyOf) && AddAll(m, xs, keyOf)[keyOf(xs[i])] == xs[i]
    decreases |xs|
  {
    var init := xs[..|xs| - 1];
    if i < |xs| - 1 {
      AddAllLastWins(m, init, keyOf, i);
    }
  }

  /** Keys no added component has are left as they were. */
  lemma {:induction false} AddAllElsewhere<T>(m: map<Key, T>, xs: seq<T>, keyOf: T -> Key, k: Key)
    requires forall j :: 0 <= j < |xs| ==> keyOf(xs[j]) != k
    ensures k in AddAll(m, xs, keyOf) <==> k in m
    ensures k in m ==> AddAll(m, xs, keyOf)[k] == m[k]
    decreases |xs|
  {
    if xs != [] {
      AddAllElsewhere(m, xs[..|xs| - 1], keyOf, k);
    }
  }

  /** When every component has the same key (as when every component serialises to the same
      string), the store keeps only the last one added under that key. */
  lemma {:induction false} AddAllOneKey<T>(m: map<Key, T>, xs: seq<T>, keyOf: T -> Key, k: Key)
    requires xs != []
    requires forall j :: 0 <= j < |xs| ==> keyOf(xs[j]) == k
    ensures AddAll(m, xs, keyOf) == m[k := xs[|xs| - 1]]
    decreases |xs|
  {
    var init := xs[..|xs| - 1];
    if init != [] {
      AddAllOneKey(m, init, keyOf, k);
    }
  }

  /** Starting from an empty store, components that all share one key leave one entry. */
  lemma AddAllOneKeySize<T>(xs: seq<T>, keyOf: T -> Key, k: Key)
    requires xs != []
    requires forall j :: 0 <= j < |xs| ==> keyOf(xs[j]) == k
    ensures |AddAll(map[], xs, keyOf)| == 1
  {
    AddAllOneKey(map[], xs, keyOf, k);
    assert AddAll(map[], xs, keyOf).Keys == {k};
  }

  /** The components of a sequence of pairs, pair by pair. */
  function Flatten<T>(pairs: seq<(T, T)>): seq<T>
  {
    if pairs == [] then []
    else var last := pairs[|pairs| - 1]; Flatten(pairs[..|pairs| - 1]) + [last.0, last.1]
  }

  lemma FlattenSnoc<T>(pairs: seq<(T, T)>, p: (T, T))
    ensures Flatten(pairs + [p]) == Flatten(pairs) + [p.0, p.1]
  {
    assert (pairs + [p])[..|pairs|] == pairs;
  }

  lemma AddAllPair<T>(m: map<Key, T>, x: T, y: T, keyOf: T -> Key)
    ensures AddAll(m, [x] + [y], keyOf) == m[keyOf(x) := x][keyOf(y) := y]
  {
    AddAllSnoc(m, [x], y, keyOf);
    AddAllSnoc(m, [], x, keyOf);
  }

  /** Adding the components of one more pair adds its first, then its second. */
  lemma AddAllFlattenSnoc<T>(m: map<Key, T>, m0: map<Key, T>, pairs: seq<(T, T)>, p: (T, T), keyOf: T -> Key)
    requires m == AddAll(m0, Flatten(pairs), keyOf)
    ensures AddAll(m0, Flatten(pairs + [p]), keyOf) == m[keyOf(p.0) := p.0][keyOf(p.1) := p.1]
  {
    FlattenSnoc(pairs, p);
    assert [p.0, p.1] == [p.0] + [p.1];
    AddAllAppend(m0, Flatten(pairs), [p.0] + [p.1], keyOf);
    AddAllPair(m, p.0, p.1, keyOf);
  }

  /** A call to `add` or `remove` on a registry. */
  datatype Op<T> = AddOp(component: T) | RemoveOp(key: Key)

  function Apply<T>(m: map<Key, T>, op: Op<T>, keyOf: T -> Key): map<Key, T>
  {
    match op
    case AddOp(c) => m[keyOf(c) := c]
    case RemoveOp(k) => m - {k}
  }

  /** The store after a sequence of calls, first to last. */
  function Replay<T>(m: map<Key, T>, ops: seq<Op<T>>, keyOf: T -> Key): map<Key, T>
    decreases |ops|
  {
    if ops == [] then m else Replay(Apply(m, ops[0], keyOf), ops[1..], keyOf)
  }

  predicate Touches<T>(op: Op<T>, k: Key, keyOf: T -> Key)
  {
    match op
    case AddOp(c) => keyOf(c) == k
    case RemoveOp(key) => key == k
  }

  /** After `id := add(c)`, `get(id)` keeps returning `c` through any calls that neither
      add a component with the same key nor remove that key. */
  lemma {:induction false} GetAfterAdd<T>(m: map<Key, T>, c: T, ops: seq<Op<T>>, keyOf: T -> Key)
    requires forall j :: 0 <= j < |ops| ==> !Touches(ops[j], keyOf(c), keyOf)
    ensures var r := Replay(Apply(m, AddOp(c), keyOf), ops, keyOf);
            keyOf(c) in r && r[keyOf(c)] == c
  {
    UntouchedKeyKept(Apply(m, AddOp(c), keyOf), ops, keyOf, keyOf(c));
  }

  lemma {:induction false} UntouchedKeyKept<T>(m: map<Key, T>, ops: seq<Op<T>>, keyOf: T -> Key, k: Key)
    requires forall j :: 0 <= j < |ops| ==> !Touches(ops[j], k, keyOf)
    ensures k in Replay(m, ops, keyOf) <==> k in m
    ensures k in m ==> Replay(m, ops, keyOf)[k] == m[k]
    decreases |ops|
  {
    if ops != [] {
      UntouchedKeyKept(Apply(m, ops[0], keyOf), ops[1..], keyOf, k);
    }
  }
}
