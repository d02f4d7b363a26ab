/**
 * A JavaScript plain object with string keys, as the form engine uses it for the
 * form data, the timers and the export record: a finite map together with the
 * order in which its keys were first created. Assigning to an existing key keeps
 * that key's position; assigning to a new key appends it.
 */
module JsObjects {
  import opened Wrappers

  datatype JsObject<V> = JsObject(order: seq<string>, entries: map<string, V>) {

    /** The key order lists every key of the map exactly once. */
    ghost predicate Valid() {
      && Distinct(order)
      && (forall k :: k in entries <==> k in order)
    }

    /** Reading a property: `obj[k]`, undefined when absent. */
    function Get(k: string): (r: Option<V>)
      ensures r.Some? <==> k in entries
      ensures r.Some? ==> r.value == entries[k]
    {
      if k in entries then Some(entries[k]) else None
    }

    /** The spread update `{ ...obj, [k]: v }`. */
    function Put(k: string, v: V): (r: JsObject<V>)
      requires Valid()
      ensures r.Valid()
      ensures r.Get(k) == Some(v)
      ensures forall k' :: k' != k ==> r.Get(k') == Get(k')
      ensures r.entries.Keys == entries.Keys + {k}
      ensures k in entries ==> r.order == order
      ensures k !in entries ==> r.order == order + [k]
    {
      if k in entries then JsObject(order, entries[k := v])
      else JsObject(order + [k], entries[k := v])
    }
  }

  /** No two entries of `s` are equal. */
  predicate Distinct(s: seq<string>) {
    forall i, j :: 0 <= i < j < |s| ==> s[i] != s[j]
  }

  /** The empty object literal `{}`. */
  function Empty<V>(): (r: JsObject<V>)
    ensures r.Valid() && r.entries == map[] && r.order == []
  {
    JsObject([], map[])
  }

  /**
   * Assigning `values[i]` to `keys[i]`, from first to last, on top of `acc`:
   * what a `reduce` writing one property per element builds, and what
   * `JSON.parse` builds from the members of an object text.
   */
  function Assign<V>(acc: JsObject<V>, keys: seq<string>, values: seq<V>): (r: JsObject<V>)
    requires acc.Valid() && |keys| == |values|
    ensures r.Valid()
    decreases |keys|
  {
    if keys == [] then acc
    else Assign(acc.Put(keys[0], values[0]), keys[1..], values[1..])
  }

  /**
   * Assigning only ever appends keys that were missing, in turn; so (the
   * result being valid) its keys are those of `acc` and `keys`.
   */
  lemma {:induction false} AssignOrder<V>(acc: JsObject<V>, keys: seq<string>, values: seq<V>)
    requires acc.Valid() && |keys| == |values|
    requires Distinct(keys)
    requires forall i :: 0 <= i < |keys| ==> keys[i] !in acc.entries
    ensures Assign(acc, keys, values).order == acc.order + keys
    decreases |keys|
  {
    if keys != [] {
      var acc' := acc.Put(keys[0], values[0]);
      FreshTail(acc, keys, values);
      AssignOrder(acc', keys[1..], values[1..]);
      AppendStep(acc.order, keys);
    }
  }

  lemma FreshTail<V>(acc: JsObject<V>, keys: seq<string>, values: seq<V>)
    requires acc.Valid() && |keys| == |values| && keys != []
    requires Distinct(keys)
    requires forall i :: 0 <= i < |keys| ==> keys[i] !in acc.entries
    ensures acc.Put(keys[0], values[0]).order == acc.order + [keys[0]]
    ensures Distinct(keys[1..])
    ensures forall i :: 0 <= i < |keys| - 1 ==> keys[1..][i] !in acc.Put(keys[0], values[0]).entries
  {
  }

  lemma AppendStep(a: seq<string>, keys: seq<string>)
    requires keys != []
    ensures (a + [keys[0]]) + keys[1..] == a + keys
  {
    assert keys == [keys[0]] + keys[1..];
  }

  /**
   * With distinct keys each ends up holding its own value, and every other
   * key keeps the value it had in `acc`.
   */
  lemma {:induction false} AssignValues<V>(acc: JsObject<V>, keys: seq<string>, values: seq<V>)
    requires acc.Valid() && |keys| == |values|
    requires Distinct(keys)
    ensures forall i :: 0 <= i < |keys| ==> Assign(acc, keys, values).Get(keys[i]) == Some(values[i])
    ensures forall k :: k !in keys ==> Assign(acc, keys, values).Get(k) == acc.Get(k)
    decreases |keys|
  {
    if keys != [] {
      var acc' := acc.Put(keys[0], values[0]);
      HeadNotInTail(keys);
      AssignValues(acc', keys[1..], values[1..]);
      ValuesStep(acc, keys, values, Assign(acc', keys[1..], values[1..]));
    }
  }

  /** Assigning distinct keys to `{}` makes an object with exactly those keys, in that order. */
  lemma AssignKeys<V>(keys: seq<string>, values: seq<V>)
    requires Distinct(keys) && |keys| == |values|
    ensures Assign(Empty(), keys, values).order == keys
    ensures forall k :: k in Assign(Empty(), keys, values).entries <==> k in keys
  {
    AssignOrder(Empty(), keys, values);
    assert [] + keys == keys;
  }

  /** The value one key ends up holding, for distinct keys. */
  lemma AssignAt<V>(acc: JsObject<V>, keys: seq<string>, values: seq<V>, i: int)
    requires acc.Valid() && |keys| == |values|
    requires Distinct(keys) && 0 <= i < |keys|
    ensures Assign(acc, keys, values).Get(keys[i]) == Some(values[i])
  {
    AssignValues(acc, keys, values);
  }

  lemma HeadNotInTail(keys: seq<string>)
    requires Distinct(keys) && keys != []
    ensures Distinct(keys[1..]) && keys[0] !in keys[1..]
  {
    forall j | 0 <= j < |keys| - 1 ensures keys[1..][j] != keys[0] {
      assert keys[1..][j] == keys[j + 1];
    }
  }

  /** The step of `AssignValues`: what holds after the rest of the keys carries over to all of them. */
  lemma ValuesStep<V>(acc: JsObject<V>, keys: seq<string>, values: seq<V>, r: JsObject<V>)
    requires acc.Valid() && |keys| == |values| && keys != [] && keys[0] !in keys[1..]
    requires forall i :: 0 <= i < |keys| - 1 ==> r.Get(keys[1..][i]) == Some(values[1..][i])
    requires forall k :: k !in keys[1..] ==> r.Get(k) == acc.Put(keys[0], values[0]).Get(k)
    ensures forall i :: 0 <= i < |keys| ==> r.Get(keys[i]) == Some(values[i])
    ensures forall k :: k !in keys ==> r.Get(k) == acc.Get(k)
  {
    forall i | 0 <= i < |keys| ensures r.Get(keys[i]) == Some(values[i]) {
      if i > 0 {
        assert keys[i] == keys[1..][i - 1] && values[i] == values[1..][i - 1];
      }
    }
    forall k | k !in keys ensures r.Get(k) == acc.Get(k) {
      assert k != keys[0];
    }
  }
}
