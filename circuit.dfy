/** The circuit: it merges the field definitions into one map from dotted
    name to field, builds the context that holds every field's observable,
    starts the fields, and publishes values on the face.

    The older version starts every field and then subscribes the `onEvent`
    forwarder to each; the newer one subscribes first and starts after. The
    constructor throws, and the model sets `failed`, when a `start` is not
    there to call, when a setup throws, or when a write it makes to the face
    throws. */
module Circuits {
  import opened Values
  import opened Definitions
  import opened Face
  import opened Fields
  import opened Streams

  /** The three loops of the constructor over the keys. */
  datatype Phase = ContextPhase | SubscribePhase | StartPhase

  /** One turn of one loop: the key it was taken for. */
  datatype Step = Step(phase: Phase, key: string)

  /** One loop over the keys, in key order: the loop's `i`-th turn is for
      the `i`-th key. */
  function Steps(p: Phase, keys: seq<string>): (r: seq<Step>)
    ensures |r| == |keys|
  {
    seq(|keys|, i requires 0 <= i < |keys| => Step(p, keys[i]))
  }

  /** A loop stopped early made the first turns of the whole loop. */
  lemma StepsPrefix(p: Phase, keys: seq<string>, n: nat)
    requires n <= |keys|
    ensures Steps(p, keys[..n]) <= Steps(p, keys)
  {
  }

  /** The log after a loop over `keys` that made its first `n` turns. */
  function Logged(log: seq<Step>, p: Phase, keys: seq<string>, n: nat): (r: seq<Step>)
    requires n <= |keys|
    ensures log <= r <= log + Steps(p, keys)
    ensures n == |keys| ==> r == log + Steps(p, keys)
  {
    StepsPrefix(p, keys, n);
    PrefixAppend(log, Steps(p, keys[..n]), Steps(p, keys));
    assert n == |keys| ==> keys[..n] == keys;
    log + Steps(p, keys[..n])
  }

  lemma PrefixTrans<T>(a: seq<T>, b: seq<T>, c: seq<T>)
    requires a <= b && b <= c
    ensures a <= c
  {
    assert c[..|b|][..|a|] == c[..|a|];
  }

  lemma PrefixThen<T>(a: seq<T>, b: seq<T>, c: seq<T>, l: seq<T>)
    requires a + b <= l <= (a + b) + c
    ensures a <= l <= a + (b + c)
  {
    assert (a + b) + c == a + (b + c);
    assert l[..|a|] == (a + b)[..|a|];
  }

  lemma PrefixAppend<T>(a: seq<T>, b: seq<T>, c: seq<T>)
    requires b <= c
    ensures a <= a + b <= a + c
  {
    assert (a + c)[..|a + b|] == a + b;
  }

  /** The three `keys.forEach` loops of the constructor, in the order of
      the given version. */
  function Schedule(order: Variant, keys: seq<string>): (r: seq<Step>)
    ensures |r| == 3 * |keys|
  {
    Steps(ContextPhase, keys)
      + (if order == Src then Steps(StartPhase, keys) + Steps(SubscribePhase, keys)
         else Steps(SubscribePhase, keys) + Steps(StartPhase, keys))
  }

  /** Which loop a turn of the constructor belongs to: the context loop
      first; then start before subscribe in the older version and subscribe
      before start in the newer one. Every loop takes the keys in order. */
  lemma ScheduleAt(order: Variant, keys: seq<string>, i: nat)
    requires i < |Schedule(order, keys)|
    ensures var n := |keys|;
      var first := if order == Src then StartPhase else SubscribePhase;
      var second := if order == Src then SubscribePhase else StartPhase;
      && |Schedule(order, keys)| == 3 * n
      && (i < n ==> Schedule(order, keys)[i] == Step(ContextPhase, keys[i]))
      && (n <= i < 2 * n ==> Schedule(order, keys)[i] == Step(first, keys[i - n]))
      && (2 * n <= i ==> Schedule(order, keys)[i] == Step(second, keys[i - 2 * n]))
  {
    var n := |keys|;
    var s := Schedule(order, keys);
    var first := if order == Src then StartPhase else SubscribePhase;
    var second := if order == Src then SubscribePhase else StartPhase;
    assert s == Steps(ContextPhase, keys) + Steps(first, keys) + Steps(second, keys);
  }

  /** In both versions every field's observable is in the context before
      the first field is started. */
  lemma ContextBeforeStart(order: Variant, keys: seq<string>, i: nat, j: nat)
    requires i < |Schedule(order, keys)| && j < |Schedule(order, keys)|
    requires Schedule(order, keys)[i].phase == ContextPhase && Schedule(order, keys)[j].phase == StartPhase
    ensures i < j
  {
    ScheduleAt(order, keys, i);
    ScheduleAt(order, keys, j);
  }

  /** The newer version subscribes every field before it starts any, so
      what a field emits while starting is forwarded; the older version
      starts every field before it subscribes any. */
  lemma SubscribeOrder(order: Variant, keys: seq<string>, i: nat, j: nat)
    requires i < |Schedule(order, keys)| && j < |Schedule(order, keys)|
    requires Schedule(order, keys)[i].phase == SubscribePhase && Schedule(order, keys)[j].phase == StartPhase
    ensures order == Dist <==> i < j
  {
    ScheduleAt(order, keys, i);
    ScheduleAt(order, keys, j);
  }

  /** With distinct keys, every key is started exactly once. */
  lemma StartedOnce(order: Variant, keys: seq<string>, k: string)
    requires forall a, b :: 0 <= a < b < |keys| ==> keys[a] != keys[b]
    requires k in keys
    ensures var s := Schedule(order, keys);
      && (exists j :: 0 <= j < |s| && s[j] == Step(StartPhase, k))
      && (forall j1, j2 :: 0 <= j1 < |s| && 0 <= j2 < |s| && s[j1] == Step(StartPhase, k) && s[j2] == Step(StartPhase, k) ==> j1 == j2)
  {
    var s := Schedule(order, keys);
    var n := |keys|;
    var a :| 0 <= a < n && keys[a] == k;
    var off := if order == Src then n else 2 * n;
    ScheduleAt(order, keys, off + a);
    assert s[off + a] == Step(StartPhase, k);
    forall j1, j2 | 0 <= j1 < |s| && 0 <= j2 < |s| && s[j1] == Step(StartPhase, k) && s[j2] == Step(StartPhase, k)
      ensures j1 == j2
    {
      ScheduleAt(order, keys, j1);
      ScheduleAt(order, keys, j2);
    }
  }

  /** What one of a setup's writes to the face does: the objects after it,
      whether it went through, and the listener calls it made. */
  function RunEffect(objs: Objects, face: ObjId, e: Effect): (r: (Objects, bool, seq<Call>))
    ensures |objs| <= |r.0|
    ensures !r.1 ==> r.2 == []
  {
    match e
    case FaceSet(path, v) =>
      var (o1, out) := Face.Set(objs, face, path, v);
      if out.TypeError? then (o1, false, []) else (o1, true, out.calls)
    case FaceWatch(path, cb) =>
      var (o1, ok) := Face.Watch(objs, face, path, cb);
      (o1, ok, [])
    case Throws => (objs, false, [])
  }

  /** What the setups' writes to the face do, one after the other; the first
      one that throws stops the setup. Also returns the listener calls made. */
  function RunEffects(objs: Objects, face: ObjId, effects: seq<Effect>): (r: (Objects, bool, seq<Call>))
    ensures |objs| <= |r.0|
    decreases |effects|
  {
    if effects == [] then (objs, true, [])
    else
      var (o1, ok, cs) := RunEffect(objs, face, effects[0]);
      if !ok then (o1, false, [])
      else AfterCalls(cs, RunEffects(o1, face, effects[1..]))
  }

  /** Running two lists of writes is running the first, then, unless it
      threw, the second from where the first left the face. */
  lemma {:induction false} RunEffectsAppend(objs: Objects, face: ObjId, a: seq<Effect>, b: seq<Effect>)
    ensures RunEffects(objs, face, a + b)
         == var r := RunEffects(objs, face, a);
            if !r.1 then r else AfterCalls(r.2, RunEffects(r.0, face, b))
    decreases |a|
  {
    if a == [] {
      assert a + b == b;
      var r := RunEffects(objs, face, b);
      assert AfterCalls([], r) == r by {
        assert [] + r.2 == r.2;
      }
    } else {
      assert (a + b)[0] == a[0] && (a + b)[1..] == a[1..] + b;
      var (o1, ok, cs) := RunEffect(objs, face, a[0]);
      if ok {
        RunEffectsAppend(o1, face, a[1..], b);
        var r1 := RunEffects(o1, face, a[1..]);
        if r1.1 {
          var x := RunEffects(r1.0, face, b);
          AppendAssoc(cs, r1.2, x.2);
        }
      }
    }
  }

  /** `r` with the listener calls `made` before it. */
  function AfterCalls(made: seq<Call>, r: (Objects, bool, seq<Call>)): (Objects, bool, seq<Call>)
  {
    (r.0, r.1, made + r.2)
  }

  /** `expose` publishes the field's observable on the face before the
      user's setup runs: right after its first write the face reads the
      observable at the field's name. */
  lemma ExposePublishesFirst(objs: Objects, face: ObjId, name: string, me: ObjId, user: SetupRun)
    requires WellFormed(objs) && Ranked(objs) && face < |objs|
    ensures var (o1, first) := Face.Set(objs, face, name, Obj(me));
      && RunEffects(objs, face, Expose(name, me, user).effects)
         == (if first.TypeError? then (o1, false, [])
             else var (o2, ok, cs) := RunEffects(o1, face, user.effects); (o2, ok, first.calls + cs))
      && (first.Done? ==> ReadPath(o1, face, name) == Some(Obj(me)))
  {
    SetThenRead(objs, face, name, Obj(me));
  }

  /** A field that has not been started or subscribed yet. */
  ghost predicate Unstarted(f: Field, v: Variant)
    reads f
  {
    && f.Valid() && f.variant == v && f.setupCalls == [] && !f.deleted && !f.subscribed
    && f.hasStart == (v == Src) && f.pending == [] && f.emitted == [] && f.held == []
    && f.digestName == None && f.forwardFrom == None
  }

  /** A field whose `start` can be called. In the newer version it is also
      subscribed, from before its first event; in the older one it is not
      subscribed yet. */
  ghost predicate ReadyState(v: Variant, s: FieldState)
  {
    && s.setupCalls == [] && !s.deleted && s.hasStart && s.pending == []
    && s.emitted == [] && s.held == [] && s.digestName == None
    && (v == Dist ==> s.subscribed && s.forwardFrom == Some(0))
    && (v == Src ==> !s.subscribed && s.forwardFrom == None)
  }

  ghost predicate Ready(f: Field)
    reads f
  {
    f.Valid() && ReadyState(f.variant, f.State())
  }

  /** No field object is given under two names. */
  predicate DistinctFields(fs: Dict<Field>)
  {
    forall j, m :: 0 <= j < m < |fs| ==> fs[j].1 != fs[m].1
  }

  /** What `setup` receives as its `me` argument: only the newer version
      passes the observable. */
  function MeArg(f: Field): Option<ObjId>
  {
    if f.variant == Dist then Some(f.me) else None
  }

  /** A field whose `start` ran once to completion, with `call`'s arguments.
      In the newer version it is subscribed; once subscribed, its forwarder
      has been there from its first event. */
  ghost predicate StartedAs(f: Field, call: SetupCall)
    reads f
  {
    StartedState(f.variant, f.State(), call)
  }

  ghost predicate StartedState(v: Variant, s: FieldState, call: SetupCall)
  {
    && s.deleted && s.setupCalls == [call]
    && (v == Dist ==> s.subscribed)
    && (s.subscribed ==> s.forwardFrom == Some(0))
    && (!s.subscribed ==> s.forwardFrom == None && s.emitted == [])
  }

  /** After the subscribe loop, a field is subscribed or, when the loop
      stopped before it, left as it was. */
  ghost predicate SubscribedOrKept(v: Variant, s0: FieldState, s1: FieldState)
  {
    s1 == Subscribing(v, s0) || s1 == s0
  }

  /** Subscribing a started field keeps it started, and its forwarder then
      starts at its first event. */
  lemma SubscribingStarted(v: Variant, s0: FieldState, s1: FieldState, call: SetupCall)
    requires StartedState(v, s0, call) && SubscribedOrKept(v, s0, s1)
    ensures StartedState(v, s1, call)
    ensures s1 == Subscribing(v, s0) ==> s1.subscribed && s1.forwardFrom == Some(0)
  {
  }

  /** Starting a ready field once, with `call`, leaves it started. */
  lemma StartedFromReady(v: Variant, s0: FieldState, s1: FieldState, call: SetupCall)
    requires ReadyState(v, s0) && s1.deleted && s1.setupCalls == s0.setupCalls + [call]
    requires s1.subscribed == s0.subscribed && s1.forwardFrom == s0.forwardFrom
    requires v == Dist || !s1.subscribed ==> s1.emitted == s0.emitted
    ensures StartedState(v, s1, call)
  {
  }

  /** Subscribing an unstarted field of the newer version makes it ready. */
  lemma SubscribingReady(s: FieldState)
    requires s.setupCalls == [] && !s.deleted && !s.subscribed && !s.hasStart && s.pending == []
    requires s.emitted == [] && s.held == [] && s.digestName == None && s.forwardFrom == None
    ensures ReadyState(Dist, Subscribing(Dist, s))
  {
    assert Subscribing(Dist, s).emitted == [] + Events([]);
  }

  /** What a `start` does to the face and the listener calls: its writes
      run one after the other from `objs`, and it succeeds when none of them
      throws and the setup `returned`. */
  function StartResult(objs: Objects, calls: seq<Call>, face: ObjId, writes: seq<Effect>, returned: bool): (Objects, bool, seq<Call>)
  {
    var w := RunEffects(objs, face, writes);
    (w.0, w.1 && returned, calls + w.2)
  }

  /** The setup of the field under `key`: what `runs` says, or a setup that
      does nothing and returns undefined. */
  function RunFor(runs: map<string, SetupRun>, key: string): SetupRun
  {
    if key in runs then runs[key] else SetupRun([], [], false, Some(Plain(Undefined)))
  }

  class Circuit {
    const heap: Heap
    const face: ObjId
    /** The circuit itself, as the setups receive it. */
    const self: ObjId
    /** The object that holds every field's observable, `this` of the setups. */
    const context: ObjId
    /** Which version this circuit is. */
    const variant: Variant
    var fields: Dict<Field>
    var log: seq<Step>
    var failed: bool
    /** The listener calls that the setups' writes to the face made. */
    var calls: seq<Call>

    ghost function FieldObjs(): set<Field>
      reads this`fields
    {
      set i | 0 <= i < |fields| :: fields[i].1
    }

    /** Every field is as `new Field` left it. */
    ghost predicate AllUnstarted()
      reads this`fields, FieldObjs()
    {
      forall j :: 0 <= j < |fields| ==> Unstarted(fields[j].1, variant)
    }

    ghost predicate AllValid()
      reads this`fields, FieldObjs()
    {
      forall j :: 0 <= j < |fields| ==> fields[j].1.Valid()
    }

    /** Every field can be started. */
    ghost predicate AllReady()
      reads this`fields, FieldObjs()
    {
      forall j :: 0 <= j < |fields| ==> Ready(fields[j].1)
    }

    /** Every field was started once, and its setup received the context,
        the observable (newer version only), its own name and the circuit. */
    ghost predicate AllStarted()
      reads this`fields, FieldObjs()
    {
      forall j :: 0 <= j < |fields| ==>
        fields[j].1.Valid() && StartedAs(fields[j].1, SetupCall(context, MeArg(fields[j].1), fields[j].0, self))
    }

    /** Every field is subscribed, and its `onEvent` forwarder has been
        there from its first event. */
    ghost predicate AllForwarding()
      reads this`fields, FieldObjs()
    {
      forall j :: 0 <= j < |fields| ==>
        fields[j].1.Valid() && fields[j].1.subscribed && fields[j].1.forwardFrom == Some(0)
    }

    /** `new Circuit(face, defs...)`: `self` is the new circuit, `runs`
        what each field's setup does when started. */
    constructor (heap: Heap, face: ObjId, self: ObjId, variant: Variant,
                 defs: seq<Arg<Field>>, runs: map<string, SetupRun>)
      requires heap.Valid() && face < |heap.objects|
      requires forall j :: 0 <= j < |Merge(Flatten(defs))| ==>
        Unstarted(Merge(Flatten(defs))[j].1, variant) && Merge(Flatten(defs))[j].1.me < |heap.objects|
      modifies heap, set j | 0 <= j < |Merge(Flatten(defs))| :: Merge(Flatten(defs))[j].1
      ensures this.heap == heap && this.face == face && this.self == self && this.variant == variant
      ensures fields == Merge(Flatten(defs))
      ensures context == |old(heap.objects)|
      ensures log <= Schedule(variant, Keys(fields))
      ensures !failed ==> log == Schedule(variant, Keys(fields))
      ensures !failed ==> AllStarted() && DistinctFields(fields)
      ensures !failed ==> forall j :: 0 <= j < |fields| ==>
        fields[j].1.Valid() && fields[j].1.subscribed && fields[j].1.forwardFrom == Some(0)
    {
      ghost var merged := Merge(Flatten(defs));
      // The merged field objects are allocated, so what the precondition
      // says of them survives allocating this circuit.
      assert allocated(defs);
      assert allocated(Flatten(defs));
      assert allocated(merged);
      assert forall j :: 0 <= j < |merged| ==> allocated(merged[j]);
      assert forall j :: 0 <= j < |merged| ==> allocated(merged[j].1);
      var fs := MergeDefinitions(defs);
      this.heap := heap;
      this.face := face;
      this.self := self;
      this.variant := variant;
      this.context := |heap.objects|;
      fields := fs;
      log := [];
      failed := false;
      calls := [];
      new;
      assert AllUnstarted();
      assert forall j :: 0 <= j < |fields| ==> fields[j].1.variant == variant;
      Setup(runs);
    }

    /** The constructor after the merge: the context object, its
        properties, then the start and subscribe loops. */
    method Setup(runs: map<string, SetupRun>)
      requires heap.Valid() && context == |heap.objects| && log == [] && !failed && AllUnstarted()
      requires forall j :: 0 <= j < |fields| ==> fields[j].1.me < |heap.objects|
      modifies heap, this`log, this`failed, this`calls, FieldObjs()
      ensures log <= Schedule(variant, Keys(fields))
      ensures !failed ==> log == Schedule(variant, Keys(fields))
      ensures !failed ==> AllStarted() && DistinctFields(fields) && AllForwarding()
    {
      var c := heap.NewObject();
      var keys := Keys(fields);
      var n, ok := FillContext(heap, c, fields);
      StepsPrefix(ContextPhase, keys, n);
      log := Steps(ContextPhase, keys[..n]);
      ghost var rest := Schedule(variant, keys)[|keys|..];
      assert Schedule(variant, keys) == Steps(ContextPhase, keys) + rest;
      if !ok {
        failed := true;
        PrefixAppend(log, [], rest);
        return;
      }
      assert keys[..n] == keys;
      Launch(runs);
    }

    /** The start and subscribe loops, in the order of the given version.
        With `rest` the steps they take, the new log extends the old one by
        a prefix of `rest`, by all of it when nothing threw. */
    method Launch(runs: map<string, SetupRun>)
      requires !failed && AllUnstarted()
      modifies heap, this`log, this`failed, this`calls, FieldObjs()
      ensures var rest := Schedule(variant, Keys(fields))[|fields|..];
        old(log) <= log <= old(log) + rest && (!failed ==> log == old(log) + rest)
      ensures !failed ==> AllStarted() && DistinctFields(fields) && AllForwarding()
    {
      var keys := Keys(fields);
      assert Schedule(variant, keys)[|keys|..] == if variant == Src
        then Steps(StartPhase, keys) + Steps(SubscribePhase, keys)
        else Steps(SubscribePhase, keys) + Steps(StartPhase, keys);
      if variant == Src {
        StartThenSubscribe(runs);
      } else {
        SubscribeThenStart(runs);
      }
    }

    /** The source version: the start loop, then the subscribe loop, which
        is not reached when a start threw and stops at a held write that
        throws. */
    method StartThenSubscribe(runs: map<string, SetupRun>)
      requires !failed && variant == Src && AllUnstarted()
      modifies heap, this`log, this`failed, this`calls, FieldObjs()
      ensures var both := Steps(StartPhase, Keys(fields)) + Steps(SubscribePhase, Keys(fields));
        old(log) <= log <= old(log) + both && (!failed ==> log == old(log) + both)
      ensures !failed ==> AllStarted() && DistinctFields(fields) && AllForwarding()
    {
      ghost var before, fs := log, fields;
      var starts := Steps(StartPhase, Keys(fields));
      var subs := Steps(SubscribePhase, Keys(fields));
      assert AllReady();
      StartAll(runs);
      assert fields == fs;
      AppendAssoc(before, starts, subs);
      if !failed {
        assert DistinctFields(fs) && log == before + starts;
        SubscribeAll();
        assert fields == fs;
        PrefixAppend(before, starts, starts);
        PrefixTrans(before, before + starts, log);
      } else {
        PrefixAppend(before, starts, starts + subs);
      }
    }

    /** The distributed version: the subscribe loop installs every start,
        then the start loop runs them; the subscriptions forward what the
        setups emit. */
    method SubscribeThenStart(runs: map<string, SetupRun>)
      requires !failed && variant == Dist && AllUnstarted()
      modifies heap, this`log, this`failed, this`calls, FieldObjs()
      ensures var both := Steps(SubscribePhase, Keys(fields)) + Steps(StartPhase, Keys(fields));
        old(log) <= log <= old(log) + both && (!failed ==> log == old(log) + both)
      ensures !failed ==> AllStarted() && DistinctFields(fields) && AllForwarding()
    {
      ghost var before, fs := log, fields;
      var starts := Steps(StartPhase, Keys(fields));
      var subs := Steps(SubscribePhase, Keys(fields));
      assert AllValid();
      assert forall j :: 0 <= j < |fields| ==> fields[j].1.variant == Dist;
      SubscribeAll();
      assert fields == fs && log == before + subs;
      StartAll(runs);
      assert fields == fs;
      PrefixThen(before, subs, starts, log);
      if !failed {
        assert DistinctFields(fs);
        forall j | 0 <= j < |fields|
          ensures fields[j].1.Valid() && fields[j].1.subscribed && fields[j].1.forwardFrom == Some(0)
        {
          assert fields[j].1.variant == Dist;
          assert StartedAs(fields[j].1, SetupCall(context, MeArg(fields[j].1), fields[j].0, self));
        }
      }
    }

    /** The merge loops: every key of every unnested definition map, in
        order, with `fields[key] = fieldsObj[key]`. */
    static method MergeDefinitions(defs: seq<Arg<Field>>) returns (fs: Dict<Field>)
      ensures fs == Merge(Flatten(defs))
    {
      var nodes := Flatten(defs);
      fs := [];
      var i := 0;
      while i < |nodes|
        invariant 0 <= i <= |nodes|
        invariant fs == Merge(nodes[..i])
      {
        MergeStep(nodes, i);
        fs := PutEach(fs, UnnestNode(nodes[i]));
        i := i + 1;
      }
      assert nodes[..i] == nodes;
    }

    /** The inner merge loop over one unnested map. */
    static method PutEach(d: Dict<Field>, flat: Dict<Field>) returns (r: Dict<Field>)
      ensures r == PutAll(d, flat)
    {
      r := d;
      var j := 0;
      while j < |flat|
        invariant 0 <= j <= |flat|
        invariant r == PutAll(d, flat[..j])
      {
        assert flat[..j + 1][..j] == flat[..j];
        r := Put(r, flat[j].0, flat[j].1);
        j := j + 1;
      }
      assert flat[..j] == flat;
    }

    /** `setObjectProp(context, key, fields[key].observable())` for every
        key, until one throws: `n` keys were tried, all of them when `ok`. */
    static method FillContext(heap: Heap, context: ObjId, fs: Dict<Field>) returns (n: nat, ok: bool)
      requires heap.Valid() && context < |heap.objects|
      requires forall j :: 0 <= j < |fs| ==> fs[j].1.me < |heap.objects|
      modifies heap
      ensures heap.Valid() && n <= |fs| && (ok ==> n == |fs|) && (!ok ==> 0 < n)
    {
      n := 0;
      ok := true;
      while n < |fs| && ok
        invariant 0 <= n <= |fs| && (!ok ==> 0 < n)
        invariant heap.Valid() && context < |heap.objects|
        invariant forall j :: 0 <= j < |fs| ==> fs[j].1.me < |heap.objects|
      {
        var me := fs[n].1.me;
        assert ValidValue(|heap.objects|, Obj(me));
        var r := heap.SetObjectPropAt(context, fs[n].0, Some(Obj(me)));
        ok := !r.TypeError?;
        n := n + 1;
      }
    }

    /** `observable().subscribe(...)`, forwarding to `onEvent`, for every
        key, until a write that a subscription makes throws. */
    method SubscribeAll()
      requires !failed && AllValid()
      modifies heap, this`log, this`failed, this`calls, FieldObjs()
      ensures old(log) <= log <= old(log) + Steps(SubscribePhase, Keys(fields))
      ensures !failed ==> log == old(log) + Steps(SubscribePhase, Keys(fields))
      ensures !failed ==> forall j :: 0 <= j < |fields| ==>
        fields[j].1.State() == Subscribing(fields[j].1.variant, old(fields[j].1.State()))
      ensures AllValid() && (old(AllStarted()) ==> AllStarted())
      ensures !failed && old(AllStarted()) ==> AllForwarding()
      ensures variant == Dist && old(AllUnstarted()) ==> !failed && AllReady()
    {
      var n, ok := SubscribeFields();
      log := Logged(log, SubscribePhase, Keys(fields), n);
      failed := !ok;
    }

    /** The subscriptions of `SubscribeAll`, and what they do to the fields:
        `n` subscriptions were made, all of them when `ok`. */
    method SubscribeFields() returns (n: nat, ok: bool)
      requires AllValid()
      modifies heap, this`calls, FieldObjs()
      ensures n <= |fields| && (ok ==> n == |fields|)
      ensures ok ==> forall j :: 0 <= j < |fields| ==>
        fields[j].1.State() == Subscribing(fields[j].1.variant, old(fields[j].1.State()))
      ensures AllValid() && (old(AllStarted()) ==> AllStarted())
      ensures ok && old(AllStarted()) ==> AllForwarding()
      ensures variant == Dist && old(AllUnstarted()) ==> ok && AllReady()
    {
      ghost var wasStarted, wasUnstarted := AllStarted(), AllUnstarted();
      if variant == Dist && wasUnstarted {
        assert forall j :: 0 <= j < |fields| ==> fields[j].1.variant == Dist;
      }
      n, ok := SubscribeLoop(fields);
      if wasStarted {
        forall j | 0 <= j < |fields|
          ensures StartedAs(fields[j].1, SetupCall(context, MeArg(fields[j].1), fields[j].0, self))
          ensures ok ==> fields[j].1.subscribed && fields[j].1.forwardFrom == Some(0)
        {
          var f := fields[j].1;
          var call := SetupCall(context, MeArg(f), fields[j].0, self);
          assert old(StartedAs(f, call));
          SubscribingStarted(f.variant, old(f.State()), f.State(), call);
        }
      }
      if variant == Dist && wasUnstarted {
        forall j | 0 <= j < |fields|
          ensures Ready(fields[j].1)
        {
          var f := fields[j].1;
          assert old(Unstarted(f, Dist));
          SubscribingReady(old(f.State()));
        }
      }
    }

    /** The subscribe loop: each subscription's writes go through the heap,
        and the loop stops at one that throws. A field given under two keys
        is subscribed twice, which changes nothing more. `n` is the number of
        subscriptions made. */
    method SubscribeLoop(fs: Dict<Field>) returns (n: nat, ok: bool)
      requires forall j :: 0 <= j < |fs| ==> fs[j].1.Valid()
      modifies heap, this`calls, set j | 0 <= j < |fs| :: fs[j].1
      ensures n <= |fs| && (ok ==> n == |fs|) && (!ok ==> 0 < n)
      ensures (forall j :: 0 <= j < |fs| ==> fs[j].1.variant == Dist) ==> ok
      ensures forall j :: 0 <= j < |fs| ==>
        fs[j].1.Valid() && SubscribedOrKept(fs[j].1.variant, old(fs[j].1.State()), fs[j].1.State())
      ensures ok ==> forall j :: 0 <= j < |fs| ==>
        fs[j].1.State() == Subscribing(fs[j].1.variant, old(fs[j].1.State()))
    {
      n := 0;
      ok := true;
      ghost var done: set<Field> := {};
      while n < |fs| && ok
        invariant 0 <= n <= |fs| && (ok ==> forall m :: 0 <= m < n ==> fs[m].1 in done)
        invariant !ok ==> 0 < n
        invariant (forall j :: 0 <= j < |fs| ==> fs[j].1.variant == Dist) ==> ok
        invariant forall j :: 0 <= j < |fs| ==>
          && fs[j].1.Valid()
          && fs[j].1.State()
             == if fs[j].1 in done then Subscribing(fs[j].1.variant, old(fs[j].1.State()))
                else old(fs[j].1.State())
      {
        var f := fs[n].1;
        SubscribingIdempotent(f.variant, old(f.State()));
        ok := SubscribeOne(f);
        done := done + {f};
        n := n + 1;
      }
    }

    /** `f.observable().subscribe(...)`: the writes of the setup result that
        the subscription releases go through the heap, and `ok` is false
        when one of them throws. */
    method SubscribeOne(f: Field) returns (ok: bool)
      requires f.Valid()
      modifies heap, this`calls, f
      ensures f.Valid() && f.State() == Subscribing(f.variant, old(f.State()))
      ensures (heap.objects, ok, calls)
           == AfterCalls(old(calls), RunEffects(old(heap.objects), face, Writes(old(f.held))))
      ensures f.variant == Dist ==> ok
    {
      var writes := f.SubscribeForwarder();
      ok := ApplyEffects(writes);
    }

    /** The fields before `i` have been started once, each under its own
        key, and are distinct; the fields from `i` on are either one of
        those or still ready. */
    ghost predicate StartedUpTo(fs: Dict<Field>, i: nat)
      reads set j | 0 <= j < |fs| :: fs[j].1
    {
      && i <= |fs|
      && (forall j :: 0 <= j < |fs| ==> fs[j].1.Valid())
      && (forall j :: 0 <= j < i ==> StartedAs(fs[j].1, SetupCall(context, MeArg(fs[j].1), fs[j].0, self)))
      && (forall j, m :: 0 <= j < m < i ==> fs[j].1 != fs[m].1)
      && (forall j :: i <= j < |fs| ==> fs[j].1.deleted || Ready(fs[j].1))
    }

    /** `field.start(context, key, circuit)` for every key, the setup's
        writes to the face going through the heap. */
    method StartAll(runs: map<string, SetupRun>)
      requires !failed && AllReady()
      modifies heap, this`log, this`failed, this`calls, FieldObjs()
      ensures old(log) <= log && log <= old(log) + Steps(StartPhase, Keys(fields))
      ensures !failed ==> log == old(log) + Steps(StartPhase, Keys(fields))
      ensures AllValid()
      ensures !failed ==> AllStarted() && DistinctFields(fields)
    {
      var keys := Keys(fields);
      var fs := fields;
      ghost var before := log;
      var n, ok := StartLoop(fs, runs);
      assert fields == fs && log == before;
      assert AllValid();
      assert ok ==> AllStarted();
      log := Logged(log, StartPhase, keys, n);
      failed := !ok;
    }

    /** The start loop, which stops at the first `start` that throws. `n`
        is the number of `start` calls made. */
    method StartLoop(fs: Dict<Field>, runs: map<string, SetupRun>) returns (n: nat, ok: bool)
      requires forall j :: 0 <= j < |fs| ==> Ready(fs[j].1)
      modifies heap, this`calls, set j | 0 <= j < |fs| :: fs[j].1
      ensures n <= |fs|
      ensures forall j :: 0 <= j < |fs| ==> fs[j].1.Valid()
      ensures ok ==> n == |fs|
      ensures ok ==> forall j :: 0 <= j < |fs| ==> StartedAs(fs[j].1, SetupCall(context, MeArg(fs[j].1), fs[j].0, self))
      ensures ok ==> DistinctFields(fs)
    {
      n := 0;
      while n < |fs|
        invariant 0 <= n <= |fs|
        invariant StartedUpTo(fs, n)
      {
        var started := StartStep(fs, n, RunFor(runs, fs[n].0));
        n := n + 1;
        if !started {
          return n, false;
        }
      }
      ok := true;
    }

    /** One turn of the start loop: the field under `fs[i].0` is started. */
    method StartStep(fs: Dict<Field>, i: nat, run: SetupRun) returns (started: bool)
      requires i < |fs| && StartedUpTo(fs, i)
      modifies heap, this`calls, fs[i].1
      ensures forall j :: 0 <= j < |fs| ==> fs[j].1.Valid()
      ensures started ==> StartedUpTo(fs, i + 1)
    {
      var f := fs[i].1;
      var call := SetupCall(context, MeArg(f), fs[i].0, self);
      if f.hasStart {
        forall m | 0 <= m < i ensures fs[m].1 != f {
          assert fs[m].1.deleted && fs[m].1.Valid();
        }
        assert Ready(f);
      }
      ghost var s0 := f.State();
      started := StartField(f, fs[i].0, run);
      if started {
        StartedFromReady(f.variant, s0, f.State(), call);
        forall j | 0 <= j < |fs| && fs[j].1 != f
          ensures fs[j].1.State() == old(fs[j].1.State()) && fs[j].1.Valid() == old(fs[j].1.Valid())
        {
        }
      }
    }

    /** `fields[key].start(context, key, circuit)`: the calls into the
        circuit that the setup and, when subscribed at once, its result make
        go through the heap first; a write that throws makes the `start`
        throw. `started` is false when `start` is not there or throws. */
    method StartOne(f: Field, key: string, run: SetupRun) returns (started: bool)
      requires f.Valid()
      modifies heap, this`calls, f
      ensures f.Valid()
      ensures !old(f.hasStart) ==>
        !started && unchanged(f) && heap.objects == old(heap.objects) && calls == old(calls)
      ensures old(f.hasStart) ==>
        && (heap.objects, started, calls)
           == StartResult(old(heap.objects), old(calls), face, StartWrites(f.variant, old(f.subscribed), run), run.outcome.Some?)
        && f.setupCalls == old(f.setupCalls) + [SetupCall(context, MeArg(f), key, self)]
        && f.subscribed == old(f.subscribed) && f.forwardFrom == old(f.forwardFrom)
        && (f.variant == Dist || !f.subscribed ==> f.emitted == old(f.emitted))
        && (started <==> f.deleted && !old(f.deleted)) && (started ==> !f.hasStart)
    {
      if !f.hasStart {
        return false;
      }
      var ok := ApplyEffects(StartWrites(f.variant, f.subscribed, run));
      var r := f.Start(context, key, self, if ok then run else run.(outcome := None));
      started := r.Started?;
    }

    /** `StartOne`, as the start loop sees it: what the `start` does to the
        field. */
    method StartField(f: Field, key: string, run: SetupRun) returns (started: bool)
      requires f.Valid()
      modifies heap, this`calls, f
      ensures f.Valid()
      ensures !old(f.hasStart) ==> !started && unchanged(f)
      ensures old(f.hasStart) ==>
        && f.setupCalls == old(f.setupCalls) + [SetupCall(context, MeArg(f), key, self)]
        && f.subscribed == old(f.subscribed) && f.forwardFrom == old(f.forwardFrom)
        && (f.variant == Dist || !f.subscribed ==> f.emitted == old(f.emitted))
        && (started <==> f.deleted && !old(f.deleted)) && (started ==> !f.hasStart)
    {
      started := StartOne(f, key, run);
    }

    /** The writes a setup makes to the face, one after the other. */
    method ApplyEffects(effects: seq<Effect>) returns (ok: bool)
      modifies heap, this`calls
      ensures (heap.objects, ok, calls) == AfterCalls(old(calls), RunEffects(old(heap.objects), face, effects))
    {
      var i := 0;
      ok := true;
      ghost var made: seq<Call> := [];
      assert effects[0..] == effects;
      assert [] + RunEffects(heap.objects, face, effects).2 == RunEffects(heap.objects, face, effects).2;
      while i < |effects| && ok
        invariant 0 <= i <= |effects|
        invariant calls == old(calls) + made
        invariant ok ==> RunEffects(old(heap.objects), face, effects)
                         == AfterCalls(made, RunEffects(heap.objects, face, effects[i..]))
        invariant !ok ==> RunEffects(old(heap.objects), face, effects) == (heap.objects, false, made)
      {
        assert effects[i..][0] == effects[i] && effects[i..][1..] == effects[i + 1..];
        ghost var step := RunEffect(heap.objects, face, effects[i]);
        ghost var rest := RunEffects(step.0, face, effects[i + 1..]);
        assert RunEffects(heap.objects, face, effects[i..])
               == if !step.1 then (step.0, false, []) else AfterCalls(step.2, rest);
        var cs;
        ok, cs := ApplyEffect(effects[i]);
        assert (heap.objects, ok, cs) == step;
        if ok {
          AppendAssoc(made, cs, rest.2);
          assert AfterCalls(made, AfterCalls(cs, rest)) == AfterCalls(made + cs, rest);
        } else {
          assert made + [] == made;
        }
        AppendAssoc(old(calls), made, cs);
        calls := calls + cs;
        made := made + cs;
        i := i + 1;
      }
      if ok {
        assert effects[i..] == [];
        assert made + [] == made;
      }
    }

    /** One write to the face, through the heap. */
    method ApplyEffect(e: Effect) returns (ok: bool, cs: seq<Call>)
      modifies heap
      ensures (heap.objects, ok, cs) == RunEffect(old(heap.objects), face, e)
    {
      match e {
        case FaceSet(path, v) =>
          var out := heap.SetObjectPropAt(face, path, Some(v));
          ok := out.Done?;
          cs := if out.Done? then out.calls else [];
        case FaceWatch(path, cb) =>
          ok := heap.WatchAt(face, path, cb);
          cs := [];
        case Throws =>
          ok := false;
          cs := [];
      }
    }

    /** `circuit.set(key, value)`. */
    method Set(path: string, v: Value) returns (r: Outcome)
      modifies heap
      ensures (heap.objects, r) == Face.Set(old(heap.objects), face, path, v)
    {
      r := heap.SetObjectPropAt(face, path, Some(v));
    }

    /** `circuit.watch(key, cb)`; `false` is the TypeError thrown when the
        leaf is a plain data property. */
    method Watch(path: string, cb: ListenerId) returns (ok: bool)
      modifies heap
      ensures (heap.objects, ok) == Face.Watch(old(heap.objects), face, path, cb)
    {
      ok := heap.WatchAt(face, path, cb);
    }

    /** The next timer of the field under `fields[j]` fires; the value a
        digest hook writes goes to the face. */
    method Deliver(j: nat) returns (r: Option<Outcome>)
      requires j < |fields| && fields[j].1.Valid()
      modifies heap, fields[j].1, this`calls
      ensures fields[j].1.Valid()
      ensures old(fields[j].1.pending) != [] ==>
        fields[j].1.emitted == old(fields[j].1.emitted) + [old(fields[j].1.pending)[0]]
      ensures fields[j].1.digestName.Some? && old(fields[j].1.pending) != [] ==>
        var (o, out) := Face.Set(old(heap.objects), face, fields[j].1.digestName.value, old(fields[j].1.pending)[0]);
        && heap.objects == o && r == Some(out)
        && calls == old(calls) + (if out.Done? then out.calls else [])
      ensures fields[j].1.digestName.None? || old(fields[j].1.pending) == [] ==>
        heap.objects == old(heap.objects) && calls == old(calls) && r == None
    {
      var f := fields[j].1;
      var w := f.Deliver();
      r := None;
      if w.Some? {
        var out := heap.SetObjectPropAt(face, w.value.path, Some(w.value.value));
        r := Some(out);
        if out.Done? {
          calls := calls + out.calls;
        }
      }
    }
  }
}
