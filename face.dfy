/** The face property protocol of src/circuit.js:45-107 (the same code is
    dist/bacon.circuit.js:51-113): a dotted path is walked into an object,
    missing intermediate objects are created, and the leaf becomes an
    accessor whose setter stores the value and calls every listener.

    The JavaScript heap is a sequence of objects, each a map from own
    property name to a slot. The closure state of the setter that
    setObjectProp defines (its `value` variable and its `listeners` array)
    belongs to exactly one property, so it is kept inside that property's
    slot. A listener is not run: the setter returns the calls it makes. */
module Face {
  import opened Values
  import opened Paths

  /** An own property: a plain data property, or the accessor pair whose
      getter returns `value` and whose setter calls `listeners`. */
  datatype Slot = Data(value: Value) | Accessor(value: Value, listeners: seq<ListenerId>)

  /** Object id -> own properties. */
  type Objects = seq<map<string, Slot>>

  /** One call `listener(value)` made by a setter. */
  datatype Call = Call(listener: ListenerId, value: Value)

  /** What `findLeaf` returns: `{object, key}`, undefined (an intermediate
      value was falsy), or a TypeError it throws (a property assigned on a
      primitive in strict mode). */
  datatype Found = Leaf(holder: Value, key: string) | NoLeaf | Thrown

  /** What setObjectProp does: it returns normally, having made these
      listener calls, or it throws a TypeError. */
  datatype Outcome = Done(calls: seq<Call>) | TypeError

  predicate ValidValue(n: nat, v: Value)
  {
    v.Obj? ==> v.id < n
  }

  /** Every object reference stored in a property refers to an object. */
  predicate WellFormed(objs: Objects)
  {
    forall o, k :: 0 <= o < |objs| && k in objs[o] ==> ValidValue(|objs|, objs[o][k].value)
  }

  /** Every object is allocated after any object that holds it: true of the
      objects that findLeaf creates, and enough to exclude a path that comes
      back to an object it has already passed. */
  predicate Ranked(objs: Objects)
  {
    forall o, k :: 0 <= o < |objs| && k in objs[o] && objs[o][k].value.Obj? ==> objs[o][k].value.id > o
  }

  /** `b` is `a` after adding objects and properties and changing listener
      lists or kinds, with no property changing its value. */
  predicate Grows(a: Objects, b: Objects)
  {
    && |a| <= |b|
    && forall o, k :: 0 <= o < |a| && k in a[o] ==> k in b[o] && b[o][k].value == a[o][k].value
  }

  lemma GrowsTransitive(a: Objects, b: Objects, c: Objects)
    requires Grows(a, b) && Grows(b, c)
    ensures Grows(a, c)
  {
  }

  predicate HasOwn(objs: Objects, v: Value, k: string)
  {
    v.Obj? && v.id < |objs| && k in objs[v.id]
  }

  /** `v[k]`: an own property of an object, otherwise undefined. */
  function Get(objs: Objects, v: Value, k: string): Value
  {
    if HasOwn(objs, v, k) then objs[v.id][k].value else Undefined
  }

  function Update(objs: Objects, o: ObjId, k: string, s: Slot): (r: Objects)
    requires o < |objs|
    ensures |r| == |objs| && k in r[o] && r[o][k] == s
    ensures forall p, j :: 0 <= p < |objs| && j in objs[p] && (p, j) != (o, k) ==> j in r[p] && r[p][j] == objs[p][j]
  {
    objs[o := objs[o][k := s]]
  }

  /** `obj[key] = {}`: a new empty object stored under a missing key.
      Nothing else changes, and the new object is newer than its holder. */
  function AddChild(objs: Objects, o: ObjId, k: string): (r: Objects)
    requires o < |objs| && k !in objs[o]
    ensures |r| == |objs| + 1 && r[|objs|] == map[] && k in r[o] && r[o][k] == Data(Obj(|objs|))
    ensures Grows(objs, r)
  {
    Update(objs, o, k, Data(Obj(|objs|))) + [map[]]
  }

  lemma AddChildWellFormed(objs: Objects, o: ObjId, k: string)
    requires o < |objs| && k !in objs[o] && WellFormed(objs)
    ensures WellFormed(AddChild(objs, o, k))
    ensures Ranked(objs) ==> Ranked(AddChild(objs, o, k))
  {
  }

  /** `findLeaf`'s loop from the current object `cur` over the keys still to
      walk (the last of which is the leaf key). With `create`, a missing
      property of an object gets a new empty object. */
  function Walk(objs: Objects, cur: Value, keys: seq<string>, create: bool): (r: (Objects, Found))
    requires |keys| >= 1
    ensures Grows(objs, r.0)
    ensures !create ==> r.0 == objs
    ensures r.1.Leaf? ==> r.1.key == keys[|keys| - 1]
    ensures r.1.Leaf? && r.1.holder.Obj? ==> cur.Obj?
    decreases |keys|
  {
    if |keys| == 1 then (objs, Leaf(cur, keys[0]))
    else if !Truthy(cur) then (objs, NoLeaf)
    else if create && !HasOwn(objs, cur, keys[0]) then
      if cur.Obj? && cur.id < |objs| then
        var nu := |objs|;
        var objs' := AddChild(objs, cur.id, keys[0]);
        Walk(objs', Obj(nu), keys[1..], create)
      else (objs, Thrown)
    else Walk(objs, Get(objs, cur, keys[0]), keys[1..], create)
  }

  /** A walk from an object of a well-formed heap keeps it well-formed
      and, in a ranked heap, ranked, and ends at an object no older than
      where it started: every object it creates is newer than its holder. */
  lemma {:induction false} WalkWellFormed(objs: Objects, cur: Value, keys: seq<string>, create: bool)
    requires WellFormed(objs) && ValidValue(|objs|, cur) && |keys| >= 1
    ensures var r := Walk(objs, cur, keys, create);
      WellFormed(r.0) && (r.1.Leaf? ==> ValidValue(|r.0|, r.1.holder))
    ensures var r := Walk(objs, cur, keys, create);
      Ranked(objs) ==> Ranked(r.0) && (r.1.Leaf? && r.1.holder.Obj? ==> r.1.holder.id >= cur.id)
    decreases |keys|
  {
    if |keys| > 1 && Truthy(cur) {
      if create && !HasOwn(objs, cur, keys[0]) {
        if cur.Obj? && cur.id < |objs| {
          var nu := |objs|;
          var objs' := AddChild(objs, cur.id, keys[0]);
          AddChildWellFormed(objs, cur.id, keys[0]);
          WalkWellFormed(objs', Obj(nu), keys[1..], create);
        }
      } else {
        WalkWellFormed(objs, Get(objs, cur, keys[0]), keys[1..], create);
      }
    }
  }

  /** `findLeaf(obj, path, create)`: the leaf it finds is keyed by the
      path's last segment; it changes no property's value, and nothing at
      all without `create`. */
  function FindLeaf(objs: Objects, root: ObjId, path: string, create: bool): (r: (Objects, Found))
    ensures Grows(objs, r.0) && (!create ==> r.0 == objs)
    ensures r.1.Leaf? ==> r.1.key == Split(path)[|Split(path)| - 1] && Segment(r.1.key)
  {
    Walk(objs, Obj(root), Split(path), create)
  }

  /** The calls a setter makes: each listener once, in registration order,
      with the new value. */
  function Calls(listeners: seq<ListenerId>, v: Value): (cs: seq<Call>)
    ensures |cs| == |listeners|
    ensures forall i :: 0 <= i < |cs| ==> cs[i] == Call(listeners[i], v)
  {
    if listeners == [] then [] else [Call(listeners[0], v)] + Calls(listeners[1..], v)
  }

  /** `object[key] = v`: through the setter when the property is an accessor,
      otherwise a plain data write (which adds the property if missing). */
  function Assign(objs: Objects, o: ObjId, k: string, v: Value): (r: (Objects, seq<Call>))
    requires o < |objs|
    ensures |r.0| == |objs| && k in r.0[o] && r.0[o][k].value == v
    ensures k in objs[o] && objs[o][k].Accessor? ==>
              r.0[o][k] == Accessor(v, objs[o][k].listeners) && r.1 == Calls(objs[o][k].listeners, v)
    ensures !(k in objs[o] && objs[o][k].Accessor?) ==> r.0[o][k] == Data(v) && r.1 == []
    ensures forall p, j :: 0 <= p < |objs| && j in objs[p] && (p, j) != (o, k) ==> j in r.0[p] && r.0[p][j] == objs[p][j]
  {
    if k in objs[o] && objs[o][k].Accessor? then
      var ls := objs[o][k].listeners;
      (Update(objs, o, k, Accessor(v, ls)), Calls(ls, v))
    else (Update(objs, o, k, Data(v)), [])
  }

  /** `setObjectProp(obj, path[, value])`: find the leaf, creating missing
      objects; on first touch make it an accessor whose closure starts with
      `value` (undefined when none is given); then, only when a value is
      given, assign it. */
  function SetObjectProp(objs: Objects, root: ObjId, path: string, value: Option<Value>): (r: (Objects, Outcome))
    ensures Grows(objs, r.0) || value.Some?
    ensures |objs| <= |r.0|
    ensures value.None? && r.1.Done? ==> r.1.calls == []
  {
    var (o1, f) := FindLeaf(objs, root, path, true);
    if f.Leaf? && f.holder.Obj? && f.holder.id < |o1| then
      var o, k := f.holder.id, f.key;
      var initial := if value.Some? then value.value else Undefined;
      var o2 := if k in o1[o] then o1 else Update(o1, o, k, Accessor(initial, []));
      assert Grows(o1, o2);
      if value.Some? then
        var (o3, calls) := Assign(o2, o, k, value.value);
        (o3, Done(calls))
      else (o2, Done([]))
    else (o1, TypeError)
  }

  /** setObjectProp keeps a heap well-formed when the value it stores
      refers to an object of the heap, and ranked when it stores no object. */
  lemma SetObjectPropWellFormed(objs: Objects, root: ObjId, path: string, value: Option<Value>)
    requires WellFormed(objs) && root < |objs| && (value.Some? ==> ValidValue(|objs|, value.value))
    ensures WellFormed(SetObjectProp(objs, root, path, value).0)
    ensures Ranked(objs) && (value.Some? ==> !value.value.Obj?) ==> Ranked(SetObjectProp(objs, root, path, value).0)
  {
    WalkWellFormed(objs, Obj(root), Split(path), true);
  }

  /** `circuit.set(name, value)` on the face. */
  function Set(objs: Objects, face: ObjId, path: string, v: Value): (Objects, Outcome)
  {
    SetObjectProp(objs, face, path, Some(v))
  }

  /** `circuit.watch(name, cb)`: make sure the leaf exists, find it again and
      append `cb` to its setter's listeners. A leaf that is a plain data
      property has no setter, so `desc.set.listeners` throws. */
  function Watch(objs: Objects, face: ObjId, path: string, cb: ListenerId): (r: (Objects, bool))
    ensures |objs| <= |r.0|
  {
    var (o1, made) := SetObjectProp(objs, face, path, None);
    if made.TypeError? then (o1, false)
    else
      var (o2, f) := FindLeaf(o1, face, path, false);
      if f.Leaf? && f.holder.Obj? && f.holder.id < |o2| && f.key in o2[f.holder.id]
         && o2[f.holder.id][f.key].Accessor? then
        var s := o2[f.holder.id][f.key];
        var o3 := Update(o2, f.holder.id, f.key, Accessor(s.value, s.listeners + [cb]));
        (o3, true)
      else (o2, false)
  }

  /** watch keeps the heap well-formed and changes no property's value. */
  lemma WatchWellFormed(objs: Objects, face: ObjId, path: string, cb: ListenerId)
    requires WellFormed(objs) && face < |objs|
    ensures WellFormed(Watch(objs, face, path, cb).0) && Grows(objs, Watch(objs, face, path, cb).0)
  {
    SetObjectPropWellFormed(objs, face, path, None);
    var o2 := SetObjectProp(objs, face, path, None).0;
    WalkWellFormed(o2, Obj(face), Split(path), false);
  }

  /** `a.b.c` read in JavaScript: undefined or null before the end throws. */
  function Read(objs: Objects, cur: Value, keys: seq<string>): Option<Value>
    decreases |keys|
  {
    if keys == [] then Some(cur)
    else if cur == Undefined || cur == Null then None
    else Read(objs, Get(objs, cur, keys[0]), keys[1..])
  }

  /** Reading the face at a dotted path. */
  function ReadPath(objs: Objects, face: ObjId, path: string): Option<Value>
  {
    Read(objs, Obj(face), Split(path))
  }

  // ---------------------------------------------------------------------
  // Properties of the protocol

  /** Writing the leaf that a walk found and reading the path again yields
      what was written. */
  lemma {:induction false} ReadAfterLeafWrite(objs: Objects, cur: Value, keys: seq<string>, create: bool, s: Slot)
    requires WellFormed(objs) && Ranked(objs) && ValidValue(|objs|, cur) && |keys| >= 1
    ensures var (o1, f) := Walk(objs, cur, keys, create);
      f.Leaf? && f.holder.Obj? && f.holder.id < |o1| ==>
        Read(Update(o1, f.holder.id, f.key, s), cur, keys) == Some(s.value)
    decreases |keys|
  {
    var (o1, f) := Walk(objs, cur, keys, create);
    if f.Leaf? && f.holder.Obj? && f.holder.id < |o1| {
      var upd := Update(o1, f.holder.id, f.key, s);
      if |keys| == 1 {
        assert keys[1..] == [];
      } else {
        var key := keys[0];
        var c := cur.id;
        if create && !HasOwn(objs, cur, key) {
          var nu := |objs|;
          var objs' := AddChild(objs, c, key);
          AddChildWellFormed(objs, c, key);
          ReadAfterLeafWrite(objs', Obj(nu), keys[1..], create, s);
          WalkWellFormed(objs', Obj(nu), keys[1..], create);
          assert Get(upd, cur, key) == Obj(nu);
        } else {
          var next := Get(objs, cur, key);
          ReadAfterLeafWrite(objs, next, keys[1..], create, s);
          WalkWellFormed(objs, next, keys[1..], create);
          assert Get(upd, cur, key) == next;
        }
      }
    }
  }

  /** A leaf found once is found again, without creating anything, in every
      heap that has only grown since: intermediate objects are reused. */
  lemma {:induction false} WalkStable(objs: Objects, cur: Value, keys: seq<string>, create: bool, objs2: Objects, create2: bool)
    requires WellFormed(objs) && ValidValue(|objs|, cur) && |keys| >= 1
    requires Walk(objs, cur, keys, create).1.Leaf? && Walk(objs, cur, keys, create).1.holder.Obj?
    requires Grows(Walk(objs, cur, keys, create).0, objs2)
    ensures Walk(objs2, cur, keys, create2) == (objs2, Walk(objs, cur, keys, create).1)
    decreases |keys|
  {
    var (o1, f) := Walk(objs, cur, keys, create);
    if |keys| > 1 {
      var key := keys[0];
      if create && !HasOwn(objs, cur, key) {
        var nu := |objs|;
        var objs' := AddChild(objs, cur.id, key);
        AddChildWellFormed(objs, cur.id, key);
        WalkStable(objs', Obj(nu), keys[1..], create, objs2, create2);
        GrowsTransitive(objs', o1, objs2);
      } else {
        var next := Get(objs, cur, key);
        WalkStable(objs, next, keys[1..], create, objs2, create2);
        GrowsTransitive(objs, o1, objs2);
      }
    }
  }

  /** After `set(path, v)` the face reads `v` at `path`; when the leaf
      already existed it is the same property, otherwise it was created
      together with any missing intermediate object. */
  lemma SetThenRead(objs: Objects, face: ObjId, path: string, v: Value)
    requires WellFormed(objs) && Ranked(objs) && face < |objs|
    ensures Set(objs, face, path, v).1.Done? ==> ReadPath(Set(objs, face, path, v).0, face, path) == Some(v)
  {
    var (o1, f) := FindLeaf(objs, face, path, true);
    if f.Leaf? && f.holder.Obj? && f.holder.id < |o1| {
      var o, k := f.holder.id, f.key;
      var o2 := if k in o1[o] then o1 else Update(o1, o, k, Accessor(v, []));
      var o3 := Assign(o2, o, k, v).0;
      if k !in o1[o] {
        assert o1[o][k := Accessor(v, [])][k := o3[o][k]] == o1[o][k := o3[o][k]];
      }
      assert o3 == Update(o1, o, k, o3[o][k]);
      ReadAfterLeafWrite(objs, Obj(face), Split(path), true, o3[o][k]);
    }
  }

  /** Writing the leaf that a walk found does not change the walk: the
      walk reads only properties of objects older than the leaf's holder. */
  lemma {:induction false} WalkAfterLeafWrite(objs: Objects, cur: Value, keys: seq<string>, s: Slot)
    requires WellFormed(objs) && Ranked(objs) && ValidValue(|objs|, cur) && |keys| >= 1
    ensures var (o1, f) := Walk(objs, cur, keys, true);
      f.Leaf? && f.holder.Obj? && f.holder.id < |o1| ==>
        var upd := Update(o1, f.holder.id, f.key, s);
        Walk(upd, cur, keys, true) == (upd, f)
    decreases |keys|
  {
    var (o1, f) := Walk(objs, cur, keys, true);
    if |keys| > 1 && f.Leaf? && f.holder.Obj? && f.holder.id < |o1| {
      var upd := Update(o1, f.holder.id, f.key, s);
      var key := keys[0];
      var c := cur.id;
      if !HasOwn(objs, cur, key) {
        var nu := |objs|;
        var objs' := AddChild(objs, c, key);
        AddChildWellFormed(objs, c, key);
        WalkAfterLeafWrite(objs', Obj(nu), keys[1..], s);
        WalkWellFormed(objs', Obj(nu), keys[1..], true);
        assert HasOwn(upd, cur, key) && Get(upd, cur, key) == Obj(nu);
      } else {
        var next := Get(objs, cur, key);
        WalkAfterLeafWrite(objs, next, keys[1..], s);
        WalkWellFormed(objs, next, keys[1..], true);
        assert HasOwn(upd, cur, key) && Get(upd, cur, key) == next;
      }
    }
  }

  /** The second of two sets on the same path wins, whatever the first one
      stored: the second set finds the same leaf and overwrites it. */
  lemma SetOverwrites(objs: Objects, face: ObjId, path: string, v1: Value, v2: Value)
    requires WellFormed(objs) && Ranked(objs) && face < |objs|
    requires Set(objs, face, path, v1).1.Done?
    ensures var o1 := Set(objs, face, path, v1).0;
      Set(o1, face, path, v2).1.Done? && ReadPath(Set(o1, face, path, v2).0, face, path) == Some(v2)
  {
    var keys := Split(path);
    var (o1, f) := FindLeaf(objs, face, path, true);
    var o, k := f.holder.id, f.key;
    var o2 := if k in o1[o] then o1 else Update(o1, o, k, Accessor(v1, []));
    var o3 := Assign(o2, o, k, v1).0;
    if k !in o1[o] {
      assert o1[o][k := Accessor(v1, [])][k := o3[o][k]] == o1[o][k := o3[o][k]];
    }
    assert o3 == Update(o1, o, k, o3[o][k]);
    assert o3 == Set(objs, face, path, v1).0;
    WalkAfterLeafWrite(objs, Obj(face), keys, o3[o][k]);
    assert FindLeaf(o3, face, path, true) == (o3, f);
    var o4 := Assign(o3, o, k, v2).0;
    assert o4 == Set(o3, face, path, v2).0;
    assert o4 == Update(o1, o, k, o4[o][k]) by {
      assert o1[o][k := o3[o][k]][k := o4[o][k]] == o1[o][k := o4[o][k]];
    }
    ReadAfterLeafWrite(objs, Obj(face), keys, true, o4[o][k]);
  }

  /** The listeners of the leaf a walk from `face` ends at, if it is an
      accessor. */
  function ListenersAt(objs: Objects, face: ObjId, path: string): seq<ListenerId>
  {
    var f := FindLeaf(objs, face, path, false).1;
    if f.Leaf? && f.holder.Obj? && f.holder.id < |objs| && f.key in objs[f.holder.id]
       && objs[f.holder.id][f.key].Accessor?
    then objs[f.holder.id][f.key].listeners
    else []
  }

  /** `watch` appends the callback to the leaf's listener list, and
      `set(path, v)` afterwards calls every listener of that list once, in
      registration order, with `v`, ending with the new callback. This
      covers a path that did not exist before the watch. */
  lemma WatchThenSet(objs: Objects, face: ObjId, path: string, cb: ListenerId, v: Value)
    requires WellFormed(objs) && face < |objs|
    requires Watch(objs, face, path, cb).1
    ensures var w := Watch(objs, face, path, cb).0;
      ListenersAt(w, face, path) == ListenersAt(objs, face, path) + [cb] &&
      Set(w, face, path, v).1 == Done(Calls(ListenersAt(objs, face, path) + [cb], v))
  {
    var keys := Split(path);
    var (o1, f1) := FindLeaf(objs, face, path, true);
    var o, k := f1.holder.id, f1.key;
    var o2 := SetObjectProp(objs, face, path, None).0;
    assert Grows(o1, o2);
    WalkStable(objs, Obj(face), keys, true, o2, false);
    var s := o2[o][k];
    var w := Update(o2, o, k, Accessor(s.value, s.listeners + [cb]));
    assert w == Watch(objs, face, path, cb).0;
    assert Grows(o2, w);
    GrowsTransitive(o1, o2, w);
    WalkStable(objs, Obj(face), keys, true, w, false);
    WalkStable(objs, Obj(face), keys, true, w, true);
    assert ListenersAt(w, face, path) == s.listeners + [cb];
    ListenersBefore(objs, face, path);
  }

  /** A creating walk either creates nothing, and then finds what a plain
      walk finds, or ends at an object it created itself, which has no
      properties yet and which a plain walk of the old heap cannot reach. */
  lemma {:induction false} WalkCreates(objs: Objects, cur: Value, keys: seq<string>)
    requires WellFormed(objs) && ValidValue(|objs|, cur) && |keys| >= 1
    ensures var (o1, f) := Walk(objs, cur, keys, true);
      f.Leaf? && f.holder.Obj? ==>
        (o1 == objs && Walk(objs, cur, keys, false) == (objs, f)) ||
        (f.holder.id >= |objs| && f.holder.id < |o1| && f.key !in o1[f.holder.id] &&
         !(Walk(objs, cur, keys, false).1.Leaf? && Walk(objs, cur, keys, false).1.holder.Obj?))
    decreases |keys|
  {
    if |keys| > 1 && Truthy(cur) {
      var key := keys[0];
      if !HasOwn(objs, cur, key) {
        if cur.Obj? && cur.id < |objs| {
          var nu := |objs|;
          var objs' := AddChild(objs, cur.id, key);
          AddChildWellFormed(objs, cur.id, key);
          WalkCreates(objs', Obj(nu), keys[1..]);
          if |keys| > 2 {
            assert !HasOwn(objs', Obj(nu), keys[1..][0]);
          }
        }
      } else {
        WalkCreates(objs, Get(objs, cur, key), keys[1..]);
      }
    }
  }

  /** The listener list the leaf had before setObjectProp touched it: empty
      when the accessor was created by this touch. */
  lemma ListenersBefore(objs: Objects, face: ObjId, path: string)
    requires WellFormed(objs) && face < |objs|
    requires SetObjectProp(objs, face, path, None).1.Done?
    ensures var o2 := SetObjectProp(objs, face, path, None).0;
      var f := FindLeaf(objs, face, path, true).1;
      f.Leaf? && f.holder.Obj? && f.holder.id < |o2| && f.key in o2[f.holder.id] &&
      (o2[f.holder.id][f.key].Accessor? ==> o2[f.holder.id][f.key].listeners == ListenersAt(objs, face, path))
  {
    WalkCreates(objs, Obj(face), Split(path));
  }

  /** The leaf a plain walk of `path` reaches is an accessor. */
  predicate Watched(objs: Objects, face: ObjId, path: string)
  {
    var f := FindLeaf(objs, face, path, false).1;
    f.Leaf? && f.holder.Obj? && f.holder.id < |objs| && f.key in objs[f.holder.id]
    && objs[f.holder.id][f.key].Accessor?
  }

  /** A direct assignment `face.a.b = v` made by code outside the circuit:
      `face.a` is evaluated (undefined or null there throws) and its property
      `b` assigned. Assigning a property of a primitive throws in strict mode. */
  function AssignPath(objs: Objects, face: ObjId, path: string, v: Value): (Objects, Outcome)
  {
    var keys := Split(path);
    var holder := Read(objs, Obj(face), keys[..|keys| - 1]);
    if holder.Some? && holder.value.Obj? && holder.value.id < |objs| then
      var (o1, calls) := Assign(objs, holder.value.id, keys[|keys| - 1], v);
      (o1, Done(calls))
    else (objs, TypeError)
  }

  /** A plain walk and a JavaScript read of the keys before the leaf agree
      on the object that holds the leaf. */
  lemma {:induction false} ReadHolder(objs: Objects, cur: Value, keys: seq<string>)
    requires |keys| >= 1
    requires Walk(objs, cur, keys, false).1.Leaf? && Walk(objs, cur, keys, false).1.holder.Obj?
    ensures Read(objs, cur, keys[..|keys| - 1]) == Some(Walk(objs, cur, keys, false).1.holder)
    decreases |keys|
  {
    if |keys| > 1 {
      ReadHolder(objs, Get(objs, cur, keys[0]), keys[1..]);
      assert keys[..|keys| - 1][1..] == keys[1..][..|keys[1..]| - 1];
    }
  }

  /** Every assignment to a watched leaf, also a direct one that bypasses
      `set`, calls each of its listeners once, in registration order, with
      the new value. */
  lemma DirectAssignCallsListeners(objs: Objects, face: ObjId, path: string, v: Value)
    requires Watched(objs, face, path)
    ensures AssignPath(objs, face, path, v).1 == Done(Calls(ListenersAt(objs, face, path), v))
  {
    ReadHolder(objs, Obj(face), Split(path));
  }

  /** As in the circuit's tests: a callback watched twice on a leaf that had
      no listeners is called twice by one direct assignment. */
  lemma WatchTwiceThenAssign(objs: Objects, face: ObjId, path: string, cb: ListenerId, v: Value)
    requires WellFormed(objs) && face < |objs| && ListenersAt(objs, face, path) == []
    requires Watch(objs, face, path, cb).1
    requires Watch(Watch(objs, face, path, cb).0, face, path, cb).1
    ensures var w2 := Watch(Watch(objs, face, path, cb).0, face, path, cb).0;
      AssignPath(w2, face, path, v).1 == Done([Call(cb, v), Call(cb, v)])
  {
    var w1 := Watch(objs, face, path, cb).0;
    var w2 := Watch(w1, face, path, cb).0;
    WatchThenSet(objs, face, path, cb, v);
    WatchWellFormed(objs, face, path, cb);
    WatchThenSet(w1, face, path, cb, v);
    WatchedAfterWatch(w1, face, path, cb);
    DirectAssignCallsListeners(w2, face, path, v);
  }

  /** A successful watch leaves an accessor at the leaf. */
  lemma WatchedAfterWatch(objs: Objects, face: ObjId, path: string, cb: ListenerId)
    requires WellFormed(objs) && face < |objs|
    requires Watch(objs, face, path, cb).1
    ensures Watched(Watch(objs, face, path, cb).0, face, path)
  {
    var keys := Split(path);
    var (o1, f1) := FindLeaf(objs, face, path, true);
    var o, k := f1.holder.id, f1.key;
    var o2 := SetObjectProp(objs, face, path, None).0;
    assert Grows(o1, o2);
    WalkStable(objs, Obj(face), keys, true, o2, false);
    var s := o2[o][k];
    var w := Update(o2, o, k, Accessor(s.value, s.listeners + [cb]));
    assert Grows(o2, w);
    GrowsTransitive(o1, o2, w);
    WalkStable(objs, Obj(face), keys, true, w, false);
  }

  /** `watch` assigns nothing: afterwards the path reads the value its leaf
      had, and undefined when the leaf did not exist before. */
  lemma WatchKeepsValue(objs: Objects, face: ObjId, path: string, cb: ListenerId)
    requires WellFormed(objs) && Ranked(objs) && face < |objs|
    requires Watch(objs, face, path, cb).1
    ensures var f := FindLeaf(objs, face, path, false).1;
      ReadPath(Watch(objs, face, path, cb).0, face, path)
      == Some(if f.Leaf? then Get(objs, f.holder, f.key) else Undefined)
  {
    var keys := Split(path);
    var (o1, f1) := FindLeaf(objs, face, path, true);
    var o, k := f1.holder.id, f1.key;
    var o2 := SetObjectProp(objs, face, path, None).0;
    assert Grows(o1, o2);
    WalkStable(objs, Obj(face), keys, true, o2, false);
    var s := o2[o][k];
    var slot := Accessor(s.value, s.listeners + [cb]);
    assert Watch(objs, face, path, cb).0 == Update(o2, o, k, slot);
    if k !in o1[o] {
      assert o1[o][k := Accessor(Undefined, [])][k := slot] == o1[o][k := slot];
    }
    assert Update(o2, o, k, slot) == Update(o1, o, k, slot);
    ReadAfterLeafWrite(objs, Obj(face), keys, true, slot);
    WalkCreates(objs, Obj(face), keys);
  }

  /** The heap of JavaScript objects that the circuit reads and writes: the
      face, the context and every object reachable from them. */
  class Heap {
    var objects: Objects

    ghost predicate Valid()
      reads this
    {
      WellFormed(objects)
    }

    constructor ()
      ensures Valid() && objects == []
    {
      objects := [];
    }

    /** `{}`. */
    method NewObject() returns (o: ObjId)
      requires Valid()
      modifies this
      ensures Valid() && o == |old(objects)| && objects == old(objects) + [map[]]
    {
      o := |objects|;
      objects := objects + [map[]];
    }

    /** `findLeaf(obj, path, create)`: the loop reassigns `obj` and, with
        `create`, assigns `obj[key] = {}` for a missing key. */
    method FindLeafAt(root: ObjId, path: string, create: bool) returns (f: Found)
      modifies this
      ensures (objects, f) == FindLeaf(old(objects), root, path, create)
    {
      var keys := Split(path);
      var obj := Obj(root);
      var i := 0;
      while i < |keys| - 1
        invariant 0 <= i <= |keys| - 1
        invariant Walk(old(objects), Obj(root), keys, create) == Walk(objects, obj, keys[i..], create)
      {
        var key := keys[i];
        assert keys[i..][0] == key && keys[i..][1..] == keys[i + 1..];
        if !Truthy(obj) {
          return NoLeaf;
        }
        if create && !HasOwn(objects, obj, key) {
          if !(obj.Obj? && obj.id < |objects|) {
            return Thrown;
          }
          var nu := |objects|;
          objects := AddChild(objects, obj.id, key);
          obj := Obj(nu);
        } else {
          obj := Get(objects, obj, key);
        }
        i := i + 1;
      }
      f := Leaf(obj, keys[i]);
    }

    /** `object[key] = v`; the setter's `forEach` over its listeners. */
    method AssignAt(o: ObjId, k: string, v: Value) returns (calls: seq<Call>)
      requires o < |objects|
      modifies this
      ensures (objects, calls) == Assign(old(objects), o, k, v)
    {
      if k in objects[o] && objects[o][k].Accessor? {
        var ls := objects[o][k].listeners;
        objects := Update(objects, o, k, Accessor(v, ls));
        calls := [];
        var i := 0;
        while i < |ls|
          invariant 0 <= i <= |ls|
          invariant |calls| == i
          invariant forall j :: 0 <= j < i ==> calls[j] == Call(ls[j], v)
        {
          calls := calls + [Call(ls[i], v)];
          i := i + 1;
        }
        assert calls == Calls(ls, v);
      } else {
        objects := Update(objects, o, k, Data(v));
        calls := [];
      }
    }

    /** `setObjectProp(obj, path[, value])`. */
    method SetObjectPropAt(root: ObjId, path: string, value: Option<Value>) returns (r: Outcome)
      modifies this
      ensures (objects, r) == SetObjectProp(old(objects), root, path, value)
      ensures |old(objects)| <= |objects|
      ensures old(Valid()) && root < |old(objects)| && (value.Some? ==> ValidValue(|old(objects)|, value.value)) ==> Valid()
    {
      if Valid() && root < |objects| && (value.Some? ==> ValidValue(|objects|, value.value)) {
        SetObjectPropWellFormed(objects, root, path, value);
      }
      var f := FindLeafAt(root, path, true);
      if !(f.Leaf? && f.holder.Obj? && f.holder.id < |objects|) {
        return TypeError;
      }
      var o, k := f.holder.id, f.key;
      if k !in objects[o] {
        var initial := if value.Some? then value.value else Undefined;
        objects := Update(objects, o, k, Accessor(initial, []));
      }
      if value.Some? {
        var calls := AssignAt(o, k, value.value);
        r := Done(calls);
      } else {
        r := Done([]);
      }
    }

    /** `Circuit.prototype.watch` on the object `face`. */
    method WatchAt(face: ObjId, path: string, cb: ListenerId) returns (ok: bool)
      modifies this
      ensures (objects, ok) == Watch(old(objects), face, path, cb)
      ensures |old(objects)| <= |objects|
    {
      var made := SetObjectPropAt(face, path, None);
      if made.TypeError? {
        return false;
      }
      var f := FindLeafAt(face, path, false);
      if f.Leaf? && f.holder.Obj? && f.holder.id < |objects| && f.key in objects[f.holder.id]
         && objects[f.holder.id][f.key].Accessor? {
        var s := objects[f.holder.id][f.key];
        objects := Update(objects, f.holder.id, f.key, Accessor(s.value, s.listeners + [cb]));
        ok := true;
      } else {
        ok := false;
      }
    }
  }
}
