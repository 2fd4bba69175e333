/** The field definition maps a circuit is built from, and the two pure
    builders that turn them into one flat map from dotted name to field:
    `flattenArray` (src/circuit.js:133-142) and `unnestKeys`
    (src/circuit.js:109-131). The type parameter `F` stands for the field
    instances. */
module Definitions {
  import opened Values
  import opened Paths

  /** A value found in a definition map. `Primitive` is a number, boolean,
      null or undefined: `for…in` enumerates nothing on it. */
  datatype Node<F> =
    | FieldNode(field: F)
    | MapNode(entries: seq<Entry<F>>)
    | Primitive

  /** One own enumerable property of a definition map, in enumeration order. */
  datatype Entry<F> = Entry(key: string, node: Node<F>)

  /** One argument after the face: a definition map or an array of arguments. */
  datatype Arg<F> = ArrayArg(items: seq<Arg<F>>) | ObjectArg(node: Node<F>)

  // ---------------------------------------------------------------------
  // flattenArray

  /** `flattenArray(array)`: the non-array items, in left-to-right order.
      Each of them is in the result exactly once, so the result is as long
      as the number of such items. */
  function Flatten<F>(args: seq<Arg<F>>): (r: seq<Node<F>>)
    ensures |r| == CountAll(args)
  {
    if args == [] then [] else FlattenOne(args[0]) + Flatten(args[1..])
  }

  /** One item of `flattenArray`'s `forEach`: an array is flattened in
      place, anything else is pushed as it is. */
  function FlattenOne<F>(a: Arg<F>): (r: seq<Node<F>>)
    ensures |r| == LeafCount(a)
    ensures !a.ArrayArg? ==> r == [a.node]
  {
    match a
    case ArrayArg(items) => Flatten(items)
    case ObjectArg(n) => [n]
  }

  /** The number of non-array items, counted independently of Flatten. */
  function LeafCount<F>(a: Arg<F>): nat
  {
    match a
    case ArrayArg(items) => CountAll(items)
    case ObjectArg(_) => 1
  }

  function CountAll<F>(args: seq<Arg<F>>): nat
  {
    if args == [] then 0 else LeafCount(args[0]) + CountAll(args[1..])
  }

  /** Flattening distributes over concatenation: the order of the arguments
      is the order of the result. */
  lemma {:induction false} FlattenAppend<F>(a: seq<Arg<F>>, b: seq<Arg<F>>)
    ensures Flatten(a + b) == Flatten(a) + Flatten(b)
  {
    if a != [] {
      assert (a + b)[0] == a[0];
      assert (a + b)[1..] == a[1..] + b;
      FlattenAppend(a[1..], b);
    } else {
      assert a + b == b;
    }
  }

  /** Wrapping the arguments in any number of arrays does not change the
      result: nesting depth is irrelevant. */
  lemma NestingIrrelevant<F>(args: seq<Arg<F>>)
    ensures Flatten([ArrayArg(args)]) == Flatten(args)
  {
  }

  /** Flattening an already flat list of definition maps gives them back. */
  lemma {:induction false} FlattenFlat<F>(nodes: seq<Node<F>>)
    ensures Flatten(seq(|nodes|, i requires 0 <= i < |nodes| => ObjectArg(nodes[i]))) == nodes
  {
    var args := seq(|nodes|, i requires 0 <= i < |nodes| => ObjectArg(nodes[i]));
    if nodes != [] {
      FlattenFlat(nodes[1..]);
      assert args[1..] == seq(|nodes[1..]|, i requires 0 <= i < |nodes[1..]| => ObjectArg(nodes[1..][i]));
      assert nodes == [nodes[0]] + nodes[1..];
    }
  }

  // ---------------------------------------------------------------------
  // Ordered dictionaries: a JavaScript object used as a map keeps its keys
  // in insertion order, and assigning to an existing key keeps its place.

  type Dict<V> = seq<(string, V)>

  function Keys<V>(d: Dict<V>): (ks: seq<string>)
    ensures |ks| == |d| && forall i :: 0 <= i < |d| ==> ks[i] == d[i].0
  {
    if d == [] then [] else [d[0].0] + Keys(d[1..])
  }

  predicate DistinctKeys<V>(d: Dict<V>)
  {
    forall i, j :: 0 <= i < j < |d| ==> d[i].0 != d[j].0
  }

  /** The value of `k`: the last entry for `k` wins. On a dictionary built by
      Put there is at most one. */
  function Lookup<V>(d: Dict<V>, k: string): Option<V>
  {
    if d == [] then None
    else if d[|d| - 1].0 == k then Some(d[|d| - 1].1)
    else Lookup(d[..|d| - 1], k)
  }

  /** The position of `k`, or |d| when `k` is absent. */
  function IndexOf<V>(d: Dict<V>, k: string): (i: nat)
    ensures i <= |d|
    ensures i < |d| ==> d[i].0 == k
    ensures forall j :: 0 <= j < i ==> d[j].0 != k
  {
    if d == [] then 0 else if d[0].0 == k then 0 else 1 + IndexOf(d[1..], k)
  }

  lemma {:induction false} LookupAbsent<V>(d: Dict<V>, k: string)
    requires forall i :: 0 <= i < |d| ==> d[i].0 != k
    ensures Lookup(d, k) == None
  {
    if d != [] {
      LookupAbsent(d[..|d| - 1], k);
    }
  }

  /** Looking a key up in `a + b` finds it in `b` first. */
  lemma {:induction false} LookupAppend<V>(a: Dict<V>, b: Dict<V>, k: string)
    ensures Lookup(a + b, k) == if Lookup(b, k).Some? then Lookup(b, k) else Lookup(a, k)
  {
    if b != [] {
      assert (a + b)[..|a + b| - 1] == a + b[..|b| - 1];
      LookupAppend(a, b[..|b| - 1], k);
    } else {
      assert a + b == a;
    }
  }

  /** Overwriting the entry at position i of a dictionary with distinct keys. */
  lemma {:induction false} LookupUpdate<V>(d: Dict<V>, i: nat, v: V, j: string)
    requires DistinctKeys(d) && i < |d|
    ensures Lookup(d[i := (d[i].0, v)], j) == if j == d[i].0 then Some(v) else Lookup(d, j)
  {
    var d' := d[i := (d[i].0, v)];
    if i == |d| - 1 {
      assert d'[..|d'| - 1] == d[..|d| - 1];
    } else {
      assert d'[..|d'| - 1] == d[..|d| - 1][i := (d[i].0, v)];
      LookupUpdate(d[..|d| - 1], i, v, j);
    }
  }

  /** `d[k] = v` on a JavaScript object: the value of `k` becomes `v` and every
      other key keeps its value, exactly as if (k, v) were appended; an
      existing key keeps its place, a new key goes last. */
  function Put<V>(d: Dict<V>, k: string, v: V): (r: Dict<V>)
    ensures DistinctKeys(d) ==> DistinctKeys(r)
    ensures DistinctKeys(d) ==> forall j :: Lookup(r, j) == Lookup(d + [(k, v)], j)
    ensures k in Keys(d) ==> Keys(r) == Keys(d)
    ensures k !in Keys(d) ==> Keys(r) == Keys(d) + [k]
  {
    var i := IndexOf(d, k);
    var r := if i < |d| then d[i := (k, v)] else d + [(k, v)];
    assert DistinctKeys(d) ==> forall j :: Lookup(r, j) == Lookup(d + [(k, v)], j) by {
      if DistinctKeys(d) {
        forall j ensures Lookup(r, j) == Lookup(d + [(k, v)], j) {
          if i < |d| {
            LookupUpdate(d, i, v, j);
          }
          assert (d + [(k, v)])[..|d|] == d;
        }
      }
    }
    assert k in Keys(d) ==> i < |d|;
    assert i < |d| ==> Keys(r) == Keys(d);
    r
  }

  /** Assigning every entry of `es` in order. */
  function PutAll<V>(d: Dict<V>, es: Dict<V>): (r: Dict<V>)
    ensures DistinctKeys(d) ==> DistinctKeys(r)
    ensures DistinctKeys(d) ==> forall j :: Lookup(r, j) == Lookup(d + es, j)
  {
    if es == [] then assert d + es == d; d
    else
      var last := es[|es| - 1];
      var prefix := PutAll(d, es[..|es| - 1]);
      assert (d + es)[..|d + es| - 1] == d + es[..|es| - 1];
      Put(prefix, last.0, last.1)
  }

  // ---------------------------------------------------------------------
  // unnestKeys

  /** `unnestKeys(obj, path)` on the entries of `obj`. */
  function Unnest<F>(entries: seq<Entry<F>>, path: seq<string>): (r: Dict<F>)
    ensures DistinctKeys(r)
    decreases entries, 1
  {
    UnnestInto([], entries, path)
  }

  /** The `for…in` loop of `unnestKeys`, with `flat` as built so far. */
  function UnnestInto<F>(flat: Dict<F>, entries: seq<Entry<F>>, path: seq<string>): (r: Dict<F>)
    ensures DistinctKeys(flat) ==> DistinctKeys(r)
    decreases entries, 0
  {
    if entries == [] then flat
    else UnnestInto(UnnestEntry(flat, entries[0], path), entries[1..], path)
  }

  /** One iteration: a field is stored under the joined key path and ends the
      recursion; a nested map is unnested under the longer path and copied in
      key by key; a primitive contributes nothing. */
  function UnnestEntry<F>(flat: Dict<F>, e: Entry<F>, path: seq<string>): (r: Dict<F>)
    ensures DistinctKeys(flat) ==> DistinctKeys(r)
    decreases e, 2
  {
    var keyPath := path + [e.key];
    match e.node
    case FieldNode(f) => Put(flat, Join(keyPath), f)
    case MapNode(children) => PutAll(flat, Unnest(children, keyPath))
    case Primitive => flat
  }

  /** `unnestKeys` applied to one item of the flattened argument list. A field
      or a primitive given directly has no own property that is a field. */
  function UnnestNode<F>(n: Node<F>): (r: Dict<F>)
    ensures DistinctKeys(r)
  {
    match n
    case MapNode(entries) => Unnest(entries, [])
    case _ => []
  }

  /** Reference definition: every field leaf under `entries`, in enumeration
      order, with the dotted form of its full key path. */
  function FieldLeaves<F>(entries: seq<Entry<F>>, path: seq<string>): seq<(string, F)>
    decreases entries
  {
    if entries == [] then [] else EntryLeaves(entries[0], path) + FieldLeaves(entries[1..], path)
  }

  function EntryLeaves<F>(e: Entry<F>, path: seq<string>): seq<(string, F)>
    decreases e
  {
    match e.node
    case FieldNode(f) => [(Join(path + [e.key]), f)]
    case MapNode(children) => FieldLeaves(children, path + [e.key])
    case Primitive => []
  }

  function NodeLeaves<F>(n: Node<F>): seq<(string, F)>
  {
    match n
    case MapNode(entries) => FieldLeaves(entries, [])
    case _ => []
  }

  /** The field `unnestKeys` stores under a dotted key is the last field leaf
      whose key path joins to that key; a key is present exactly when some
      field leaf has it. */
  lemma {:induction false} UnnestLookup<F>(entries: seq<Entry<F>>, path: seq<string>, k: string)
    ensures Lookup(Unnest(entries, path), k) == Lookup(FieldLeaves(entries, path), k)
    decreases entries, 1
  {
    UnnestIntoLookup([], entries, path, k);
    assert [] + FieldLeaves(entries, path) == FieldLeaves(entries, path);
  }

  lemma {:induction false} UnnestIntoLookup<F>(flat: Dict<F>, entries: seq<Entry<F>>, path: seq<string>, k: string)
    requires DistinctKeys(flat)
    ensures Lookup(UnnestInto(flat, entries, path), k) == Lookup(flat + FieldLeaves(entries, path), k)
    decreases entries, 0
  {
    if entries == [] {
      assert flat + FieldLeaves(entries, path) == flat;
    } else {
      var e := entries[0];
      var flat1 := UnnestEntry(flat, e, path);
      var here := EntryLeaves(e, path);
      var rest := FieldLeaves(entries[1..], path);
      assert UnnestInto(flat, entries, path) == UnnestInto(flat1, entries[1..], path);
      assert FieldLeaves(entries, path) == here + rest;
      UnnestIntoLookup(flat1, entries[1..], path, k);
      UnnestEntryLookup(flat, e, path, k);
      LookupAppend(flat1, rest, k);
      LookupAppend(flat + here, rest, k);
      AppendAssoc(flat, here, rest);
    }
  }

  lemma {:induction false} UnnestEntryLookup<F>(flat: Dict<F>, e: Entry<F>, path: seq<string>, k: string)
    requires DistinctKeys(flat)
    ensures Lookup(UnnestEntry(flat, e, path), k) == Lookup(flat + EntryLeaves(e, path), k)
    decreases e, 2
  {
    var keyPath := path + [e.key];
    match e.node
    case FieldNode(f) =>
    case MapNode(children) =>
      var nested := Unnest(children, keyPath);
      UnnestIntoLookup([], children, keyPath, k);
      assert [] + FieldLeaves(children, keyPath) == FieldLeaves(children, keyPath);
      LookupAppend(flat, nested, k);
      LookupAppend(flat, FieldLeaves(children, keyPath), k);
    case Primitive =>
      assert flat + EntryLeaves(e, path) == flat;
  }

  // ---------------------------------------------------------------------
  // Merging the definition maps (the first loop of the Circuit constructor)

  /** The flat field map after the first `k` definition maps are merged. */
  function Merge<F>(nodes: seq<Node<F>>): (r: Dict<F>)
    ensures DistinctKeys(r)
  {
    if nodes == [] then []
    else PutAll(Merge(nodes[..|nodes| - 1]), UnnestNode(nodes[|nodes| - 1]))
  }

  /** Merging one more map is assigning its unnested keys. */
  lemma MergeStep<F>(nodes: seq<Node<F>>, i: nat)
    requires i < |nodes|
    ensures Merge(nodes[..i + 1]) == PutAll(Merge(nodes[..i]), UnnestNode(nodes[i]))
  {
    assert nodes[..i + 1][..i] == nodes[..i];
  }

  /** Reference definition: the field leaves of all maps, in order. */
  function AllLeaves<F>(nodes: seq<Node<F>>): seq<(string, F)>
  {
    if nodes == [] then [] else AllLeaves(nodes[..|nodes| - 1]) + NodeLeaves(nodes[|nodes| - 1])
  }

  lemma {:induction false} UnnestNodeLookup<F>(n: Node<F>, k: string)
    ensures Lookup(UnnestNode(n), k) == Lookup(NodeLeaves(n), k)
  {
    match n
    case MapNode(entries) => UnnestLookup(entries, [], k);
    case _ =>
  }

  /** A later definition map overrides an earlier one at the same dotted key;
      keys it does not define keep the field of the earlier maps. */
  lemma MergeOverrides<F>(nodes: seq<Node<F>>, n: Node<F>, k: string)
    ensures Lookup(Merge(nodes + [n]), k)
         == if Lookup(NodeLeaves(n), k).Some? then Lookup(NodeLeaves(n), k) else Lookup(Merge(nodes), k)
  {
    assert (nodes + [n])[..|nodes + [n]| - 1] == nodes;
    UnnestNodeLookup(n, k);
    LookupAppend(Merge(nodes), UnnestNode(n), k);
  }

  /** Merging all maps stores under each dotted key the last field leaf, over
      all maps in order, whose key path joins to it. */
  lemma {:induction false} MergeLookup<F>(nodes: seq<Node<F>>, k: string)
    ensures Lookup(Merge(nodes), k) == Lookup(AllLeaves(nodes), k)
  {
    if nodes != [] {
      var init, n := nodes[..|nodes| - 1], nodes[|nodes| - 1];
      assert nodes == init + [n];
      MergeLookup(init, k);
      MergeOverrides(init, n, k);
      LookupAppend(AllLeaves(init), NodeLeaves(n), k);
    }
  }
}
