/** The stream operators the fields are built from, modelled by their effect
    on finite event traces: a trace is the sequence of values a stream emits,
    in emission order. What a stream does once subscribed, its events
    together with the calls into the circuit its binders and `doAction`s
    make, is a trace of `Act`s. */
module Streams {
  import opened Values

  // ---------------------------------------------------------------------
  // skipDuplicates

  /** The last value of `s`, or `prev` when `s` is empty. */
  function LastOf(prev: Option<Value>, s: seq<Value>): Option<Value>
  {
    if s == [] then prev else Some(s[|s| - 1])
  }

  /** `skipDuplicates()` after having emitted `prev`: an event is dropped
      exactly when it is `===` to the one emitted before it. Objects compare
      by identity, which is equality of `Obj` ids. */
  function SkipFrom(prev: Option<Value>, s: seq<Value>): (r: seq<Value>)
    ensures |r| <= |s|
    ensures prev.Some? && r != [] ==> r[0] != prev.value
    decreases |s|
  {
    if s == [] then []
    else if prev == Some(s[0]) then SkipFrom(prev, s[1..])
    else [s[0]] + SkipFrom(Some(s[0]), s[1..])
  }

  /** Whatever was emitted before, the output never repeats a value twice
      in a row. */
  lemma {:induction false} SkipFromNoRepeats(prev: Option<Value>, s: seq<Value>)
    ensures NoRepeats(SkipFrom(prev, s))
    decreases |s|
  {
    if s != [] {
      if prev == Some(s[0]) {
        SkipFromNoRepeats(prev, s[1..]);
      } else {
        SkipFromNoRepeats(Some(s[0]), s[1..]);
      }
    }
  }

  /** `skipDuplicates()` from the start of a stream: its output never
      repeats a value twice in a row. */
  function SkipDuplicates(s: seq<Value>): (r: seq<Value>)
    ensures NoRepeats(r) && |r| <= |s|
  {
    SkipFromNoRepeats(None, s);
    SkipFrom(None, s)
  }

  /** The reference reading of consecutive-duplicate suppression: keep the
      first event and every event that differs from the input event just
      before it. */
  function Changes(s: seq<Value>): seq<Value>
  {
    if |s| <= 1 then s
    else Changes(s[..|s| - 1]) + (if s[|s| - 1] == s[|s| - 2] then [] else [s[|s| - 1]])
  }

  predicate NoRepeats(s: seq<Value>)
  {
    forall i :: 0 < i < |s| ==> s[i] != s[i - 1]
  }

  lemma {:induction false} SkipFromSnoc(prev: Option<Value>, s: seq<Value>, x: Value)
    ensures SkipFrom(prev, s + [x])
         == SkipFrom(prev, s) + (if LastOf(prev, s) == Some(x) then [] else [x])
    decreases |s|
  {
    if s == [] {
      assert SkipFrom(prev, [x]) == (if prev == Some(x) then [] else [x]);
    } else {
      assert (s + [x])[0] == s[0] && (s + [x])[1..] == s[1..] + [x];
      var next := if prev == Some(s[0]) then prev else Some(s[0]);
      SkipFromSnoc(next, s[1..], x);
      assert LastOf(next, s[1..]) == LastOf(prev, s);
    }
  }

  /** `skipDuplicates` is consecutive-duplicate suppression and nothing else. */
  lemma {:induction false} SkipDuplicatesChanges(s: seq<Value>)
    ensures SkipDuplicates(s) == Changes(s)
    decreases |s|
  {
    if |s| == 1 {
      assert SkipFrom(None, s) == [s[0]] + SkipFrom(Some(s[0]), []);
    } else if |s| > 1 {
      var init := s[..|s| - 1];
      assert s == init + [s[|s| - 1]];
      SkipDuplicatesChanges(init);
      SkipFromSnoc(None, init, s[|s| - 1]);
      assert LastOf(None, init) == Some(s[|s| - 2]);
    }
  }

  lemma {:induction false} SkipFromKeeps(prev: Option<Value>, s: seq<Value>)
    requires NoRepeats(s)
    requires prev.Some? && s != [] ==> s[0] != prev.value
    ensures SkipFrom(prev, s) == s
    decreases |s|
  {
    if s != [] {
      SkipFromKeeps(Some(s[0]), s[1..]);
    }
  }

  /** A trace without consecutive duplicates passes through unchanged, so
      applying `skipDuplicates` twice is the same as applying it once. */
  lemma SkipDuplicatesIdempotent(s: seq<Value>)
    ensures NoRepeats(s) ==> SkipDuplicates(s) == s
    ensures SkipDuplicates(SkipDuplicates(s)) == SkipDuplicates(s)
  {
    if NoRepeats(s) {
      SkipFromKeeps(None, s);
    }
    SkipFromKeeps(None, SkipDuplicates(s));
  }

  lemma {:induction false} SkipFromAppend(prev: Option<Value>, a: seq<Value>, b: seq<Value>)
    ensures SkipFrom(prev, a + b) == SkipFrom(prev, a) + SkipFrom(LastOf(prev, a), b)
    decreases |a|
  {
    if a == [] {
      assert a + b == b;
    } else {
      assert (a + b)[0] == a[0] && (a + b)[1..] == a[1..] + b;
      var next := if prev == Some(a[0]) then prev else Some(a[0]);
      SkipFromAppend(next, a[1..], b);
      assert LastOf(next, a[1..]) == LastOf(prev, a);
    }
  }

  /** What an earlier part of the input produces is final: later events only
      add to the output. */
  lemma SkipDuplicatesPrefix(a: seq<Value>, b: seq<Value>)
    ensures SkipDuplicates(a + b) == SkipDuplicates(a) + SkipFrom(LastOf(None, a), b)
    ensures SkipDuplicates(a) <= SkipDuplicates(a + b)
  {
    SkipFromAppend(None, a, b);
  }

  // ---------------------------------------------------------------------
  // flatMapLatest over the calls of a published function

  /** One step of the life of a published function: a call with its
      arguments, or an event of the stream that the call number `call`
      (counted from 0) produced. */
  datatype Item = Invoke(args: seq<Value>) | Emit(call: nat, v: Value)

  function Invocations(items: seq<Item>): nat
  {
    if items == [] then 0
    else Invocations(items[..|items| - 1]) + (if items[|items| - 1].Invoke? then 1 else 0)
  }

  lemma {:induction false} InvocationsAppend(a: seq<Item>, b: seq<Item>)
    ensures Invocations(a + b) == Invocations(a) + Invocations(b)
    decreases |b|
  {
    if b == [] {
      assert a + b == a;
    } else {
      assert (a + b)[..|a + b| - 1] == a + b[..|b| - 1];
      InvocationsAppend(a, b[..|b| - 1]);
    }
  }

  /** `flatMapLatest`: an event gets through only if no later call has been
      made by the time it is emitted. A call cancels the earlier calls'
      pending events at the moment it is made, whether or not it ever emits. */
  function LatestWins(items: seq<Item>): (r: seq<Value>)
    ensures |r| + Invocations(items) <= |items|
  {
    if items == [] then []
    else
      var init, last := items[..|items| - 1], items[|items| - 1];
      LatestWins(init) + (if last.Emit? && last.call + 1 == Invocations(init) then [last.v] else [])
  }

  /** The output of `flatMapLatest` computed as `Bacon.fromBinder(...)
      .flatMapLatest(...)` does it, with a generation counter: each call
      starts a new generation and an event passes only if it belongs to the
      current one. */
  method RunLatest(items: seq<Item>) returns (out: seq<Value>)
    ensures out == LatestWins(items)
  {
    var generation := 0;
    out := [];
    var i := 0;
    while i < |items|
      invariant 0 <= i <= |items|
      invariant generation == Invocations(items[..i])
      invariant out == LatestWins(items[..i])
    {
      assert items[..i + 1][..i] == items[..i];
      match items[i] {
        case Invoke(_) =>
          generation := generation + 1;
        case Emit(call, v) =>
          if call + 1 == generation {
            out := out + [v];
          }
      }
      i := i + 1;
    }
    assert items[..|items|] == items;
  }

  /** An event of a call that has since been superseded is dropped, however
      late it arrives. */
  lemma LatestWinsDropsStale(before: seq<Item>, args: seq<Value>, after: seq<Item>, call: nat, v: Value)
    requires call < Invocations(before)
    ensures var t := before + [Invoke(args)] + after;
      LatestWins(t + [Emit(call, v)]) == LatestWins(t)
  {
    var t := before + [Invoke(args)] + after;
    assert (t + [Emit(call, v)])[..|t|] == t;
    InvocationsAppend(before, [Invoke(args)]);
    InvocationsAppend(before + [Invoke(args)], after);
    assert Invocations([Invoke(args)]) == 1 by {
      assert [Invoke(args)][..0] == [];
    }
  }

  /** An event of the most recent call gets through. */
  lemma LatestWinsKeepsCurrent(t: seq<Item>, v: Value)
    requires Invocations(t) > 0
    ensures LatestWins(t + [Emit(Invocations(t) - 1, v)]) == LatestWins(t) + [v]
  {
    var e := Emit(Invocations(t) - 1, v);
    var t2 := t + [e];
    assert t2[..|t2| - 1] == t && t2[|t2| - 1] == e;
  }

  /** Calls whose streams each emit one value at once, as the default
      transforms' streams do: call number `i` produces `vs[i]`. */
  function SyncCalls(argss: seq<seq<Value>>, vs: seq<Value>): seq<Item>
    requires |argss| == |vs|
  {
    if vs == [] then []
    else
      var n := |vs| - 1;
      SyncCalls(argss[..n], vs[..n]) + [Invoke(argss[n]), Emit(n, vs[n])]
  }

  lemma {:induction false} SyncCallsInvocations(argss: seq<seq<Value>>, vs: seq<Value>)
    requires |argss| == |vs|
    ensures Invocations(SyncCalls(argss, vs)) == |vs|
    decreases |vs|
  {
    if vs != [] {
      var n := |vs| - 1;
      var init := SyncCalls(argss[..n], vs[..n]);
      SyncCallsInvocations(argss[..n], vs[..n]);
      var pair := [Invoke(argss[n]), Emit(n, vs[n])];
      InvocationsAppend(init, pair);
      assert pair[..1] == [Invoke(argss[n])] && pair[..1][..0] == [];
      assert Invocations(pair[..1]) == 1;
      assert Invocations(pair) == 1;
    }
  }

  /** When every call emits its value at once, every call's value gets
      through, in call order. */
  lemma {:induction false} LatestWinsSyncCalls(argss: seq<seq<Value>>, vs: seq<Value>)
    requires |argss| == |vs|
    ensures LatestWins(SyncCalls(argss, vs)) == vs
    decreases |vs|
  {
    if vs != [] {
      var n := |vs| - 1;
      var init := SyncCalls(argss[..n], vs[..n]);
      var t := init + [Invoke(argss[n])];
      assert SyncCalls(argss, vs) == t + [Emit(n, vs[n])];
      assert t[..|t| - 1] == init;
      LatestWinsSyncCalls(argss[..n], vs[..n]);
      SyncCallsInvocations(argss[..n], vs[..n]);
      InvocationsAppend(init, [Invoke(argss[n])]);
      assert [Invoke(argss[n])][..0] == [];
      assert (t + [Emit(n, vs[n])])[..|t|] == t;
      assert vs == vs[..n] + [vs[n]];
    }
  }

  /** The transform `method` uses when given none, `function () { return
      arguments; }`: one event that carries the arguments object of the
      call. */
  function DistDefaultTransform(call: nat, args: seq<Value>): Value
  {
    Args(call, args)
  }

  /** The transform the older `function` uses when given none,
      `function () {}`: one undefined event, whatever the arguments. */
  function SrcDefaultTransform(call: nat, args: seq<Value>): Value
  {
    Undefined
  }

  /** The value each call emits at once: call number `i` emits
      `transform(i, argss[i])`. */
  function MapTransform(argss: seq<seq<Value>>, transform: (nat, seq<Value>) -> Value): (r: seq<Value>)
    ensures |r| == |argss|
    ensures forall i :: 0 <= i < |argss| ==> r[i] == transform(i, argss[i])
  {
    seq(|argss|, i requires 0 <= i < |argss| => transform(i, argss[i]))
  }

  /** With the default transform of `method`, the calls `fn(a...)`,
      `fn(b...)`, ... produce one event per call holding that call's
      arguments, in call order; two calls give two different events even
      when their arguments are equal. */
  lemma DistDefaultEvents(argss: seq<seq<Value>>)
    ensures var vs := MapTransform(argss, DistDefaultTransform);
      var out := LatestWins(SyncCalls(argss, vs));
      && |out| == |argss|
      && (forall i :: 0 <= i < |argss| ==> out[i].Args? && out[i].items == argss[i])
      && (forall i, j :: 0 <= i < j < |argss| ==> out[i] != out[j])
  {
    LatestWinsSyncCalls(argss, MapTransform(argss, DistDefaultTransform));
  }

  /** With the default transform of the older `function`, every call
      produces one undefined event. */
  lemma SrcDefaultEvents(argss: seq<seq<Value>>)
    ensures var vs := MapTransform(argss, SrcDefaultTransform);
      var out := LatestWins(SyncCalls(argss, vs));
      |out| == |argss| && forall i :: 0 <= i < |argss| ==> out[i] == Undefined
  {
    LatestWinsSyncCalls(argss, MapTransform(argss, SrcDefaultTransform));
  }

  /** The circuit's own example of a call that never emits: `fn(1)` emits 1
      at once and "drop me" much later, `fn(2)` never emits, `fn(3)` emits 3.
      Call 2 cancels "drop me" although it emits nothing itself. */
  lemma MethodCancelsAtCall()
    ensures LatestWins([Invoke([Num(1)]), Emit(0, Num(1)), Invoke([Num(2)]),
                        Emit(0, Str("drop me")), Invoke([Num(3)]), Emit(2, Num(3))])
         == [Num(1), Num(3)]
  {
    var t1 := [Invoke([Num(1)])];
    var t2 := t1 + [Emit(0, Num(1))];
    var t3 := t2 + [Invoke([Num(2)])];
    var t4 := t3 + [Emit(0, Str("drop me"))];
    var t5 := t4 + [Invoke([Num(3)])];
    var t6 := t5 + [Emit(2, Num(3))];
    assert t1[..|t1| - 1] == [];
    assert Invocations(t1) == 1 && LatestWins(t1) == [];
    assert t2[..|t2| - 1] == t1;
    assert Invocations(t2) == 1 && LatestWins(t2) == [Num(1)];
    assert t3[..|t3| - 1] == t2;
    assert Invocations(t3) == 2 && LatestWins(t3) == [Num(1)];
    assert t4[..|t4| - 1] == t3;
    assert Invocations(t4) == 2 && LatestWins(t4) == [Num(1)];
    assert t5[..|t5| - 1] == t4;
    assert Invocations(t5) == 3 && LatestWins(t5) == [Num(1)];
    assert t6[..|t6| - 1] == t5;
    assert LatestWins(t6) == [Num(1), Num(3)];
    assert t6 == [Invoke([Num(1)]), Emit(0, Num(1)), Invoke([Num(2)]),
                  Emit(0, Str("drop me")), Invoke([Num(3)]), Emit(2, Num(3))];
  }

  // ---------------------------------------------------------------------
  // the promise a call of the published function returns

  /** What one call of the published function returns: nothing
      (`undefined`), or a promise together with the value it has resolved
      with by the end of the trace, if any. */
  datatype CallReturn = NoPromise | Promise(resolved: Option<Value>)

  /** The first event of the stream of call number `call`, whether or not a
      later call has superseded it. */
  function FirstEmitted(items: seq<Item>, call: nat): Option<Value>
  {
    if items == [] then None
    else
      var init, last := items[..|items| - 1], items[|items| - 1];
      if FirstEmitted(init, call).Some? then FirstEmitted(init, call)
      else if last.Emit? && last.call == call then Some(last.v)
      else None
  }

  /** The first event of call number `call` that `flatMapLatest` lets
      through, that is, one emitted while no later call has been made. */
  function FirstDelivered(items: seq<Item>, call: nat): Option<Value>
  {
    if items == [] then None
    else
      var init, last := items[..|items| - 1], items[|items| - 1];
      if FirstDelivered(init, call).Some? then FirstDelivered(init, call)
      else if last.Emit? && last.call == call && call + 1 == Invocations(init) then Some(last.v)
      else None
  }

  /** No promise without a promise constructor. In the newer version the
      promise's `resolve` is a `doAction` on the very stream handed to
      `flatMapLatest`, so it resolves with the call's first event that the
      field emits; the older version's `firstToPromise` subscribes the
      call's stream on its own and resolves with its first event. */
  function CallReturns(variant: Variant, promiseConstructor: Value, items: seq<Item>, call: nat): CallReturn
  {
    if !Truthy(promiseConstructor) then NoPromise
    else Promise(if variant == Dist then FirstDelivered(items, call) else FirstEmitted(items, call))
  }

  lemma {:induction false} FirstDeliveredInOutput(items: seq<Item>, call: nat)
    ensures FirstDelivered(items, call).Some? ==> FirstDelivered(items, call).value in LatestWins(items)
    decreases |items|
  {
    if items != [] {
      var init := items[..|items| - 1];
      FirstDeliveredInOutput(init, call);
    }
  }

  /** The newer version returns a promise exactly when there is a promise
      constructor, and the value it resolves with is an event of the field. */
  lemma DistPromiseResolvesWithEvent(promiseConstructor: Value, items: seq<Item>, call: nat)
    ensures var r := CallReturns(Dist, promiseConstructor, items, call);
      && (r.Promise? <==> Truthy(promiseConstructor))
      && (r.Promise? && r.resolved.Some? ==> r.resolved.value in LatestWins(items))
  {
    FirstDeliveredInOutput(items, call);
  }

  /** An event of the current call resolves that call's pending promise
      with it, and the event gets through. */
  lemma DistPromiseResolves(promiseConstructor: Value, t: seq<Item>, v: Value)
    requires Truthy(promiseConstructor) && Invocations(t) > 0
    requires FirstDelivered(t, Invocations(t) - 1).None?
    ensures var call := Invocations(t) - 1;
      && CallReturns(Dist, promiseConstructor, t + [Emit(call, v)], call) == Promise(Some(v))
      && LatestWins(t + [Emit(call, v)]) == LatestWins(t) + [v]
  {
    var call := Invocations(t) - 1;
    assert (t + [Emit(call, v)])[..|t|] == t;
  }

  /** In the newer version a superseded call's promise is not resolved by
      its later events: they are cancelled with the stream. */
  lemma DistPromiseCancelled(promiseConstructor: Value, before: seq<Item>, args: seq<Value>,
                             after: seq<Item>, call: nat, v: Value)
    requires call < Invocations(before)
    ensures var t := before + [Invoke(args)] + after;
      CallReturns(Dist, promiseConstructor, t + [Emit(call, v)], call)
      == CallReturns(Dist, promiseConstructor, t, call)
  {
    var t := before + [Invoke(args)] + after;
    assert (t + [Emit(call, v)])[..|t|] == t;
    InvocationsAppend(before, [Invoke(args)]);
    InvocationsAppend(before + [Invoke(args)], after);
    assert Invocations([Invoke(args)]) == 1 by {
      assert [Invoke(args)][..0] == [];
    }
  }

  /** A promise resolves once: later items leave it as it is. */
  lemma {:induction false} PromiseSettles(variant: Variant, promiseConstructor: Value,
                                          items: seq<Item>, more: seq<Item>, call: nat)
    requires CallReturns(variant, promiseConstructor, items, call).Promise?
    requires CallReturns(variant, promiseConstructor, items, call).resolved.Some?
    ensures CallReturns(variant, promiseConstructor, items + more, call)
         == CallReturns(variant, promiseConstructor, items, call)
    decreases |more|
  {
    if more == [] {
      assert items + more == items;
    } else {
      var init := more[..|more| - 1];
      PromiseSettles(variant, promiseConstructor, items, init, call);
      assert (items + more)[..|items + more| - 1] == items + init;
    }
  }

  /** The two versions part when a call is superseded before it emits:
      `fn(1)` then `fn(2)` are called and only then does the stream of the
      first call emit 1. The field drops the 1; the newer version's promise
      of the first call stays pending while the older one's resolves with 1. */
  lemma PromiseAfterCancel()
    ensures var items := [Invoke([Num(1)]), Invoke([Num(2)]), Emit(0, Num(1))];
      && LatestWins(items) == []
      && CallReturns(Dist, Obj(0), items, 0) == Promise(None)
      && CallReturns(Src, Obj(0), items, 0) == Promise(Some(Num(1)))
  {
    var t1 := [Invoke([Num(1)])];
    var t2 := t1 + [Invoke([Num(2)])];
    var t3 := t2 + [Emit(0, Num(1))];
    assert t1[..|t1| - 1] == [];
    assert Invocations(t1) == 1 && LatestWins(t1) == [];
    assert FirstEmitted(t1, 0) == None && FirstDelivered(t1, 0) == None;
    assert t2[..|t2| - 1] == t1;
    assert Invocations(t2) == 2 && LatestWins(t2) == [];
    assert FirstEmitted(t2, 0) == None && FirstDelivered(t2, 0) == None;
    assert t3[..|t3| - 1] == t2;
    assert t3 == [Invoke([Num(1)]), Invoke([Num(2)]), Emit(0, Num(1))];
  }

  // ---------------------------------------------------------------------
  // what subscribing a stream does

  /** A call into the circuit: `circuit.set(path, value)`,
      `circuit.watch(path, cb)`, or a call that throws, as `mergeAll` does
      when it subscribes to something that is not an observable. */
  datatype Effect = FaceSet(path: string, value: Value) | FaceWatch(path: string, cb: ListenerId) | Throws

  /** One step of what a stream does once subscribed: a call into the
      circuit made by one of its binders or `doAction`s, or an event. */
  datatype Act = Write(effect: Effect) | Event(v: Value)

  /** The events of a trace, in order. */
  function Events(t: seq<Act>): (r: seq<Value>)
    ensures |r| <= |t|
  {
    if t == [] then [] else (if t[0].Event? then [t[0].v] else []) + Events(t[1..])
  }

  /** The calls into the circuit of a trace, in order. */
  function Writes(t: seq<Act>): (r: seq<Effect>)
    ensures |r| <= |t|
  {
    if t == [] then [] else (if t[0].Write? then [t[0].effect] else []) + Writes(t[1..])
  }

  /** Taking the first step off a trace. */
  lemma ActsCons(x: Act, t: seq<Act>)
    ensures Events([x] + t) == (if x.Event? then [x.v] else []) + Events(t)
    ensures Writes([x] + t) == (if x.Write? then [x.effect] else []) + Writes(t)
  {
    assert ([x] + t)[0] == x && ([x] + t)[1..] == t;
  }

  lemma {:induction false} ActsAppend(a: seq<Act>, b: seq<Act>)
    ensures Events(a + b) == Events(a) + Events(b)
    ensures Writes(a + b) == Writes(a) + Writes(b)
    decreases |a|
  {
    if a == [] {
      assert a + b == b;
    } else {
      var x, rest := a[0], a[1..];
      assert a == [x] + rest && a + b == [x] + (rest + b);
      ActsAppend(rest, b);
      ActsCons(x, rest);
      ActsCons(x, rest + b);
      var e, w := if x.Event? then [x.v] else [], if x.Write? then [x.effect] else [];
      AppendAssoc(e, Events(rest), Events(b));
      AppendAssoc(w, Writes(rest), Writes(b));
    }
  }

  /** A trace of the events `vs` and nothing else. */
  function AsEvents(vs: seq<Value>): (t: seq<Act>)
    ensures Events(t) == vs && Writes(t) == []
  {
    if vs == [] then [] else [Event(vs[0])] + AsEvents(vs[1..])
  }

  /** `skipDuplicates()` on a trace, after having emitted `prev`. */
  function SkipActs(prev: Option<Value>, t: seq<Act>): seq<Act>
    decreases |t|
  {
    if t == [] then []
    else if t[0].Write? then [t[0]] + SkipActs(prev, t[1..])
    else if prev == Some(t[0].v) then SkipActs(prev, t[1..])
    else [t[0]] + SkipActs(Some(t[0].v), t[1..])
  }

  /** Duplicate suppression on a trace acts on its events alone. */
  lemma {:induction false} SkipActsTrace(prev: Option<Value>, t: seq<Act>)
    ensures Events(SkipActs(prev, t)) == SkipFrom(prev, Events(t))
    ensures Writes(SkipActs(prev, t)) == Writes(t)
    decreases |t|
  {
    if t != [] {
      var x := t[0];
      ActsCons(x, t[1..]);
      assert t == [x] + t[1..];
      if x.Write? {
        SkipActsTrace(prev, t[1..]);
        ActsCons(x, SkipActs(prev, t[1..]));
        assert [] + Events(t[1..]) == Events(t[1..]);
        assert [] + Events(SkipActs(prev, t[1..])) == Events(SkipActs(prev, t[1..]));
      } else if prev == Some(x.v) {
        SkipActsTrace(prev, t[1..]);
        assert ([x.v] + Events(t[1..]))[1..] == Events(t[1..]);
      } else {
        SkipActsTrace(Some(x.v), t[1..]);
        ActsCons(x, SkipActs(Some(x.v), t[1..]));
        assert ([x.v] + Events(t[1..]))[1..] == Events(t[1..]);
      }
    }
  }

  lemma {:induction false} SkipActsAppend(prev: Option<Value>, a: seq<Act>, b: seq<Act>)
    ensures SkipActs(prev, a + b) == SkipActs(prev, a) + SkipActs(LastOf(prev, Events(a)), b)
    decreases |a|
  {
    if a == [] {
      assert a + b == b;
    } else {
      var x, rest := a[0], a[1..];
      var kept := x.Write? || prev != Some(x.v);
      var next := if x.Write? then prev else Some(x.v);
      var head := if kept then [x] else [];
      assert (a + b)[0] == x && (a + b)[1..] == rest + b;
      assert SkipActs(prev, a + b) == head + SkipActs(next, rest + b);
      assert SkipActs(prev, a) == head + SkipActs(next, rest);
      assert LastOf(prev, Events(a)) == LastOf(next, Events(rest)) by {
        ActsCons(x, rest);
        assert a == [x] + rest;
      }
      SkipActsAppend(next, rest, b);
      AppendAssoc(head, SkipActs(next, rest), SkipActs(LastOf(next, Events(rest)), b));
    }
  }


  /** The `circuit.set(name, v)` calls that a `doAction` writing under
      `name` makes for the events `events`: one per event, in order. */
  function DigestEffects(name: string, events: seq<Value>): (r: seq<Effect>)
    ensures |r| == |events|
    ensures forall i :: 0 <= i < |events| ==> r[i] == FaceSet(name, events[i])
  {
    if events == [] then [] else DigestEffects(name, events[..|events| - 1]) + [FaceSet(name, events[|events| - 1])]
  }

  lemma DigestEffectsAppend(name: string, a: seq<Value>, b: seq<Value>)
    ensures DigestEffects(name, a + b) == DigestEffects(name, a) + DigestEffects(name, b)
  {
    assert |DigestEffects(name, a + b)| == |a| + |b|;
  }

  /** `.doAction(v => circuit.set(name, v))` on a trace: each event is
      written under `name` as it passes. */
  function Digested(name: string, t: seq<Act>): seq<Act>
    decreases |t|
  {
    if t == [] then []
    else (if t[0].Event? then [Write(FaceSet(name, t[0].v)), t[0]] else [t[0]]) + Digested(name, t[1..])
  }

  /** The digest hook passes the same events on, keeps every other call in
      place, and on a trace of events alone writes each event in order. */
  lemma {:induction false} DigestedTrace(name: string, t: seq<Act>)
    ensures Events(Digested(name, t)) == Events(t)
    ensures Writes(t) == [] ==> Writes(Digested(name, t)) == DigestEffects(name, Events(t))
    decreases |t|
  {
    if t != [] {
      DigestedTrace(name, t[1..]);
      var head := if t[0].Event? then [Write(FaceSet(name, t[0].v)), t[0]] else [t[0]];
      ActsAppend(head, Digested(name, t[1..]));
      if t[0].Event? {
        assert Events(head) == [t[0].v] by {
          assert head[1..] == [t[0]] && head[1..][1..] == [];
        }
        assert Writes(head) == [FaceSet(name, t[0].v)] by {
          assert head[1..] == [t[0]] && head[1..][1..] == [];
        }
        DigestEffectsAppend(name, [t[0].v], Events(t[1..]));
        assert DigestEffects(name, [t[0].v]) == [FaceSet(name, t[0].v)];
      }
    }
  }

  lemma {:induction false} DigestedAppend(name: string, a: seq<Act>, b: seq<Act>)
    ensures Digested(name, a + b) == Digested(name, a) + Digested(name, b)
    decreases |a|
  {
    if a == [] {
      assert a + b == b;
    } else {
      assert (a + b)[0] == a[0] && (a + b)[1..] == a[1..] + b;
      DigestedAppend(name, a[1..], b);
    }
  }

  // ---------------------------------------------------------------------
  // the value a setup returns

  /** What a setup function returns; an observable comes with what it does
      once subscribed. */
  datatype Returned =
    | BusOf(trace: seq<Act>)
    | PropertyOf(trace: seq<Act>)
    | StreamOf(trace: seq<Act>)
    | Plain(value: Value)

  /** `if (result instanceof Bacon.Bus) result = result.toProperty()`. */
  function BusToProperty(r: Returned): Returned
  {
    if r.BusOf? then PropertyOf(r.trace) else r
  }

  /** `if (result instanceof Bacon.Property) result = result.toEventStream()`. */
  function PropertyToStream(r: Returned): Returned
  {
    if r.PropertyOf? then StreamOf(r.trace) else r
  }

  /** The normalisation chain: every observable ends up an event stream that
      does the same once subscribed, and anything else is left alone. */
  function Normalize(r: Returned): (n: Returned)
    ensures n.StreamOf? <==> !r.Plain?
    ensures n.StreamOf? ==> n.trace == r.trace
    ensures r.Plain? ==> n == r
  {
    PropertyToStream(BusToProperty(r))
  }

  /** What the field subscribes to: the normalised result if it is an event
      stream, nothing otherwise. */
  function Subscription(r: Returned): (t: seq<Act>)
    ensures r.Plain? ==> t == []
    ensures !r.Plain? ==> t == r.trace
  {
    var n := Normalize(r);
    if n.StreamOf? then n.trace else []
  }

  /** The events that reach the field. */
  function Plugged(r: Returned): (events: seq<Value>)
    ensures r.Plain? ==> events == []
    ensures !r.Plain? ==> events == Events(r.trace)
  {
    Events(Subscription(r))
  }

  // ---------------------------------------------------------------------
  // watch

  /** The stream `watch` builds: `mergeAll(merge, feed).skipDuplicates()`.
      The supplied source is subscribed first, so what it has emitted by the
      time the watch feed starts comes first: `early` are those events,
      `rest` everything that the merge emits after them. */
  function WatchStream(early: seq<Value>, rest: seq<Value>): seq<Value>
  {
    SkipDuplicates(early + rest)
  }

  /** The watch stream begins with the supplied source's own early events,
      duplicates suppressed, and never repeats a value twice in a row. */
  lemma WatchStreamShape(early: seq<Value>, rest: seq<Value>)
    ensures SkipDuplicates(early) <= WatchStream(early, rest)
    ensures NoRepeats(WatchStream(early, rest))
    ensures WatchStream(early, rest) == Changes(early + rest)
  {
    SkipDuplicatesPrefix(early, rest);
    SkipDuplicatesChanges(early + rest);
  }

  /** The circuit's own example: consecutive repeats are dropped, a value
      seen earlier but not just before is kept, and two different objects
      count as different values. */
  lemma WatchDropsRepeats()
    ensures SkipDuplicates([Undefined, Num(1), Num(1), Num(2), Num(1), Obj(1), Obj(2)])
         == [Undefined, Num(1), Num(2), Num(1), Obj(1), Obj(2)]
  {
    var s6 := [Obj(2)];
    var s5 := [Obj(1)] + s6;
    var s4 := [Num(1)] + s5;
    var s3 := [Num(2)] + s4;
    var s2 := [Num(1)] + s3;
    var s1 := [Num(1)] + s2;
    var s0 := [Undefined] + s1;
    assert SkipFrom(Some(Obj(1)), s6) == [Obj(2)] by {
      assert s6[1..] == [];
    }
    assert SkipFrom(Some(Num(1)), s5) == [Obj(1)] + SkipFrom(Some(Obj(1)), s6) by {
      assert s5[1..] == s6;
    }
    assert SkipFrom(Some(Num(2)), s4) == [Num(1)] + SkipFrom(Some(Num(1)), s5) by {
      assert s4[1..] == s5;
    }
    assert SkipFrom(Some(Num(1)), s3) == [Num(2)] + SkipFrom(Some(Num(2)), s4) by {
      assert s3[1..] == s4;
    }
    assert SkipFrom(Some(Num(1)), s2) == SkipFrom(Some(Num(1)), s3) by {
      assert s2[1..] == s3;
    }
    assert SkipFrom(Some(Undefined), s1) == [Num(1)] + SkipFrom(Some(Num(1)), s2) by {
      assert s1[1..] == s2;
    }
    assert SkipDuplicates(s0) == [Undefined] + SkipFrom(Some(Undefined), s1) by {
      assert s0[1..] == s1;
    }
    assert s0 == [Undefined, Num(1), Num(1), Num(2), Num(1), Obj(1), Obj(2)];
  }
}
