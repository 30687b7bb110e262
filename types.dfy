/** What the serializer reads from a resolved .NET `Type`. */
module Types {

  /**
   * A resolved type: `Name`, `Namespace`, `FullName`, the types
   * `GetBaseTypes()` yields in its order, and whether it is `object` itself.
   */
  datatype TypeDesc = TypeDesc(
    name: string,
    namespaceName: string,
    fullName: string,
    baseTypes: seq<TypeDesc>,
    isObject: bool
  )

  /** `.Where(x => x != typeof(object))`: drops `object`, keeps the order of the rest. */
  function WithoutObject(types: seq<TypeDesc>): (r: seq<TypeDesc>)
    ensures |r| <= |types|
    ensures forall t :: t in r <==> t in types && !t.isObject
    ensures forall k :: 0 <= k < |r| ==> !r[k].isObject
    decreases types
  {
    if types == [] then []
    else (if types[0].isObject then [] else [types[0]]) + WithoutObject(types[1..])
  }

  /** Filtering a concatenation filters each part in place: the order is preserved. */
  lemma {:induction false} WithoutObjectAppend(a: seq<TypeDesc>, b: seq<TypeDesc>)
    ensures WithoutObject(a + b) == WithoutObject(a) + WithoutObject(b)
    decreases a
  {
    if a == [] {
      assert a + b == b;
    } else {
      assert (a + b)[0] == a[0];
      assert (a + b)[1..] == a[1..] + b;
      WithoutObjectAppend(a[1..], b);
    }
  }

  /** A list without `object` in it is kept as it is. */
  lemma {:induction false} WithoutObjectKeeps(types: seq<TypeDesc>)
    requires forall k :: 0 <= k < |types| ==> !types[k].isObject
    ensures WithoutObject(types) == types
    decreases types
  {
    if types != [] {
      WithoutObjectKeeps(types[1..]);
    }
  }
}
