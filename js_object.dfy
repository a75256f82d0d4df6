/** JavaScript values and plain objects, as far as the outlet directive uses them:
    own enumerable properties kept in insertion order, property reads with
    `undefined` for a missing key, `delete`, assignment and `Object.keys`. */
module JsObject {

  datatype Option<T> = None | Some(value: T)

  /** A JavaScript value as it can sit in a context object. Objects are known by
      their identity only; `Descriptor` is an `NzComponentOutlet` seen as a value. */
  datatype Value =
    | Undefined
    | Bool(b: bool)
    | Num(n: int)
    | Str(s: string)
    | Obj(ref: nat)
    | Descriptor(component: nat)

  /** The own enumerable properties of an object, as a value. */
  type Ctx = map<string, Value>

  /** Reading property `k` of an object whose properties are `m`. */
  function Read(m: Ctx, k: string): (v: Value)
    ensures k in m ==> v == m[k]
    ensures k !in m ==> v == Undefined
  {
    if k in m then m[k] else Undefined
  }

  predicate Distinct(ks: seq<string>) {
    forall i, j :: 0 <= i < j < |ks| ==> ks[i] != ks[j]
  }

  /** `ks` lists the keys of `m`, each once. */
  ghost predicate KeysMatch(ks: seq<string>, m: Ctx) {
    Distinct(ks) && forall k :: k in m <==> k in ks
  }

  /** The key order after `delete o[k]`: `k` leaves, the others keep their order. */
  function Without(ks: seq<string>, k: string): (r: seq<string>)
    ensures forall x :: x in r <==> x in ks && x != k
    ensures Distinct(ks) ==> Distinct(r)
    ensures k !in ks ==> r == ks
    ensures Distinct(ks) && |ks| > 0 && ks[0] == k ==> r == ks[1..]
  {
    if ks == [] then []
    else if ks[0] == k then Without(ks[1..], k)
    else
      var rest := Without(ks[1..], k);
      DistinctPrepend(ks[0], rest);
      [ks[0]] + rest
  }

  /** Deleting the key at position `i` of a list of distinct keys leaves the
      keys before it and the keys after it, each in their old order. */
  lemma {:induction false} WithoutAt(ks: seq<string>, i: nat)
    requires Distinct(ks) && i < |ks|
    ensures Without(ks, ks[i]) == ks[..i] + ks[i + 1..]
  {
    if i > 0 {
      var tail := ks[1..];
      assert ks[i] != ks[0];
      DistinctTail(ks);
      assert tail[i - 1] == ks[i];
      WithoutAt(tail, i - 1);
      assert tail[..i - 1] == ks[1..i];
      assert tail[i..] == ks[i + 1..];
      assert ks[..i] == [ks[0]] + ks[1..i];
      calc {
        Without(ks, ks[i]);
        [ks[0]] + Without(tail, ks[i]);
        [ks[0]] + (ks[1..i] + ks[i + 1..]);
        ks[..i] + ks[i + 1..];
      }
    }
  }

  /** Dropping the first key keeps the keys distinct. */
  lemma DistinctTail(ks: seq<string>)
    requires Distinct(ks) && ks != []
    ensures Distinct(ks[1..])
  {
    forall a, b | 0 <= a < b < |ks| - 1 ensures ks[1..][a] != ks[1..][b] {
      assert ks[1..][a] == ks[a + 1] && ks[1..][b] == ks[b + 1];
    }
  }

  /** Putting a key in front of a list of distinct keys that lacks it keeps
      the keys distinct. */
  lemma DistinctPrepend(a: string, s: seq<string>)
    ensures a !in s && Distinct(s) ==> Distinct([a] + s)
  {
  }

  /** A plain JavaScript object, mutated in place. */
  class ContextObject {
    var keys: seq<string>
    var props: Ctx

    ghost predicate Valid()
      reads this
    {
      KeysMatch(keys, props)
    }

    /** An object literal whose keys are written in the order `ks`. */
    constructor Init(ks: seq<string>, m: Ctx)
      requires KeysMatch(ks, m)
      ensures Valid() && keys == ks && props == m
    {
      keys, props := ks, m;
    }

    /** `Object.keys(this)`: a copy of the key order. */
    method Keys() returns (ks: seq<string>)
      requires Valid()
      ensures ks == keys && KeysMatch(ks, props)
    {
      ks := keys;
    }

    /** `this[k]`. */
    method Get(k: string) returns (v: Value)
      ensures v == Read(props, k)
    {
      v := if k in props then props[k] else Undefined;
    }

    /** `delete this[k]`; deleting a missing key changes nothing. */
    method Delete(k: string)
      requires Valid()
      modifies this
      ensures Valid()
      ensures props == old(props) - {k}
      ensures keys == Without(old(keys), k)
    {
      props := props - {k};
      keys := Without(keys, k);
    }

    /** `this[k] = v`; a new key goes to the end of the key order. */
    method Put(k: string, v: Value)
      requires Valid()
      modifies this
      ensures Valid()
      ensures props == old(props)[k := v]
      ensures keys == if k in old(props) then old(keys) else old(keys) + [k]
    {
      if k !in props {
        keys := keys + [k];
      }
      props := props[k := v];
    }
  }
}
