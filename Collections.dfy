/** The whole-collection steps the pages compute before writing a collection back
    to the store: `slice`, `filter` by id, `map` replacing by id, `findIndex` by
    id, and the map-then-push upsert. Entities are compared through a `key`
    function that gives their `id`. */
module Collections {
  import opened Optional

  /** `xs.slice(0, n)`: the first `n` elements, or all of them when there are fewer. */
  function Take<T>(xs: seq<T>, n: nat): (r: seq<T>)
    ensures |r| <= n && |r| <= |xs| && r == xs[..|r|]
    ensures |xs| <= n ==> r == xs
    ensures |xs| > n ==> |r| == n
  {
    if |xs| <= n then xs else xs[..n]
  }

  /** Some element has the given id (`xs.some(x => key(x) === id)`). */
  predicate HasKey<T>(xs: seq<T>, key: T -> string, id: string) {
    exists i :: 0 <= i < |xs| && key(xs[i]) == id
  }

  /** `xs.filter(x => key(x) !== id)`. */
  function RemoveKey<T(==)>(xs: seq<T>, key: T -> string, id: string): (r: seq<T>)
    ensures |r| <= |xs|
    ensures forall i :: 0 <= i < |r| ==> r[i] in xs && key(r[i]) != id
    ensures forall i :: 0 <= i < |xs| && key(xs[i]) != id ==> xs[i] in r
  {
    if xs == [] then []
    else (if key(xs[0]) != id then [xs[0]] else []) + RemoveKey(xs[1..], key, id)
  }

  /** Removing distributes over concatenation, so the survivors keep their
      relative order. */
  lemma {:induction false} RemoveKeyConcat<T>(a: seq<T>, b: seq<T>, key: T -> string, id: string)
    ensures RemoveKey(a + b, key, id) == RemoveKey(a, key, id) + RemoveKey(b, key, id)
  {
    if a == [] {
      assert a + b == b;
    } else {
      assert (a + b)[0] == a[0];
      assert (a + b)[1..] == a[1..] + b;
      RemoveKeyConcat(a[1..], b, key, id);
    }
  }

  /** When no element has the id, removing changes nothing. */
  lemma {:induction false} RemoveKeyAbsent<T>(xs: seq<T>, key: T -> string, id: string)
    requires !HasKey(xs, key, id)
    ensures RemoveKey(xs, key, id) == xs
  {
    if xs != [] {
      assert key(xs[0]) != id;
      assert !HasKey(xs[1..], key, id);
      RemoveKeyAbsent(xs[1..], key, id);
    }
  }

  /** Appending an element with a fresh id and then removing that id gives back
      the original sequence. */
  lemma RemoveKeyAfterAppend<T>(xs: seq<T>, key: T -> string, y: T)
    requires !HasKey(xs, key, key(y))
    ensures RemoveKey(xs + [y], key, key(y)) == xs
  {
    RemoveKeyConcat(xs, [y], key, key(y));
    RemoveKeyAbsent(xs, key, key(y));
    assert RemoveKey([y], key, key(y)) == [];
  }

  /** `xs.map(x => key(x) === id ? y : x)`: every element with the id becomes `y`,
      every other element is kept in its place. */
  function ReplaceKey<T>(xs: seq<T>, key: T -> string, id: string, y: T): (r: seq<T>)
    ensures |r| == |xs|
    ensures forall i :: 0 <= i < |xs| ==> r[i] == if key(xs[i]) == id then y else xs[i]
  {
    if xs == [] then []
    else [if key(xs[0]) == id then y else xs[0]] + ReplaceKey(xs[1..], key, id, y)
  }

  /** The map-then-push upsert: replace the elements with the id, or append `y`
      at the end when there is none. */
  function UpsertKey<T>(xs: seq<T>, key: T -> string, id: string, y: T): (r: seq<T>)
    ensures |r| == if HasKey(xs, key, id) then |xs| else |xs| + 1
    ensures forall i :: 0 <= i < |xs| ==> r[i] == if key(xs[i]) == id then y else xs[i]
    ensures !HasKey(xs, key, id) ==> r[|xs|] == y
  {
    var mapped := ReplaceKey(xs, key, id, y);
    if HasKey(xs, key, id) then mapped else mapped + [y]
  }

  /** `xs.findIndex(x => key(x) === id)`, with none for -1: the first element
      with the id. */
  function FindKey<T>(xs: seq<T>, key: T -> string, id: string): (r: Option<nat>)
    ensures r.None? <==> !HasKey(xs, key, id)
    ensures r.Some? ==> r.value < |xs| && key(xs[r.value]) == id
    ensures r.Some? ==> forall j :: 0 <= j < r.value ==> key(xs[j]) != id
  {
    if xs == [] then None
    else if key(xs[0]) == id then Some(0)
    else match FindKey(xs[1..], key, id)
      case None =>
        None
      case Some(i) =>
        assert key(xs[1..][i]) == id;
        Some(i + 1)
  }

  /** `xs.find(x => key(x) === id)`: the first element with the id. */
  function FindByKey<T>(xs: seq<T>, key: T -> string, id: string): (r: Option<T>)
    ensures r.None? <==> !HasKey(xs, key, id)
    ensures r.Some? ==> key(r.value) == id
    ensures r.Some? ==> exists i :: 0 <= i < |xs| && xs[i] == r.value && forall j :: 0 <= j < i ==> key(xs[j]) != id
  {
    match FindKey(xs, key, id)
    case None => None
    case Some(i) => Some(xs[i])
  }

  /** After an upsert of `y` under its own id, looking that id up finds `y`. */
  lemma UpsertThenFind<T>(xs: seq<T>, key: T -> string, y: T)
    ensures FindByKey(UpsertKey(xs, key, key(y), y), key, key(y)) == Some(y)
  {
    var r := UpsertKey(xs, key, key(y), y);
    if !HasKey(xs, key, key(y)) {
      assert key(r[|xs|]) == key(y);
    } else {
      var i :| 0 <= i < |xs| && key(xs[i]) == key(y);
      assert key(r[i]) == key(y);
    }
    var j := FindKey(r, key, key(y)).value;
    assert j < |xs| ==> key(xs[j]) == key(y);
  }

  /** The number of elements `keep` selects (`xs.filter(keep).length`). */
  function CountWhere<T>(xs: seq<T>, keep: T -> bool): (n: nat)
    ensures n <= |xs|
  {
    if xs == [] then 0 else (if keep(xs[0]) then 1 else 0) + CountWhere(xs[1..], keep)
  }

  /** Appending one element adds one to the count when `keep` selects it. */
  lemma {:induction false} CountWhereAppend<T>(xs: seq<T>, keep: T -> bool, x: T)
    ensures CountWhere(xs + [x], keep) == CountWhere(xs, keep) + (if keep(x) then 1 else 0)
  {
    if xs != [] {
      assert (xs + [x])[1..] == xs[1..] + [x];
      CountWhereAppend(xs[1..], keep, x);
    }
  }

  /** Counts of two selections that never overlap and together cover every
      element add up to the length. */
  lemma {:induction false} CountPartition<T>(xs: seq<T>, p: T -> bool, q: T -> bool)
    requires forall i :: 0 <= i < |xs| ==> (p(xs[i]) <==> !q(xs[i]))
    ensures CountWhere(xs, p) + CountWhere(xs, q) == |xs|
  {
    if xs != [] {
      CountPartition(xs[1..], p, q);
    }
  }
}
