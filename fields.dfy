/** A field: a named reactive value of a circuit, with the one-shot `start`
    that runs its setup, and the combinators that build setups.

    Two versions of the field exist. In the older one (`Src`) the observable
    is a bus that `start` plugs the setup's result into, and `start` exists
    from construction. In the newer one (`Dist`) `start` is installed only
    when the observable is first subscribed, the setup also receives an
    asynchronous sink, every value reaches the observable through a timer
    queue, and a `doAction` hook can be installed on the observable.

    A setup is foreign code; what one call of it does is a parameter
    (`SetupRun`). Its stream results are modelled as whole event traces. */
module Fields {
  import opened Values
  import opened Streams

  datatype Kind = StreamKind | PropertyKind

  /** The `Type` given to the field's constructor. */
  datatype TypeArg = EventStreamType | PropertyType | NoType

  /** The observable is an event stream exactly when `Type` is
      `Bacon.EventStream`, and a property otherwise, also when no type is
      given. */
  function KindOf(t: TypeArg): (k: Kind)
    ensures k == StreamKind <==> t == EventStreamType
    ensures t == NoType ==> k == PropertyKind
  {
    if t == EventStreamType then StreamKind else PropertyKind
  }

  /** What one call of a setup does: the calls into the circuit it makes
      itself, in order; the values it passes to the sink it is given (`Dist`
      only); whether it installs the `doAction` hook that writes each value
      of the field to the circuit (`Dist` only); and what it returns (`None`
      when it throws). */
  datatype SetupRun = SetupRun(effects: seq<Effect>, sunk: seq<Value>, digest: bool, outcome: Option<Returned>)

  /** The arguments a setup was called with: `this` is `context`, and then
      `(name, circuit)` in `Src`, `(asyncSink, me, name, circuit)` in `Dist`. */
  datatype SetupCall = SetupCall(context: ObjId, me: Option<ObjId>, name: string, circuit: ObjId)

  datatype StartOutcome =
      /** There is no `start` method to call: a TypeError. */
    | NotAFunction
      /** The setup, or subscribing its result, threw; `start` was not
          deleted. */
    | Threw
    | Started

  /** Whether `start` subscribes the setup's result at once. The newer
      version does, with `result.subscribe(asyncSink)`; the older one plugs
      it into its bus, which subscribes to what is plugged only while the
      bus itself has a subscriber. */
  predicate SubscribesAtStart(variant: Variant, subscribed: bool)
  {
    variant == Dist || subscribed
  }

  /** The calls into the circuit that a `start` makes before it returns:
      the setup's own, then those of its result if that is subscribed at
      once. */
  function StartWrites(variant: Variant, subscribed: bool, run: SetupRun): seq<Effect>
  {
    run.effects
      + (if run.outcome.Some? && SubscribesAtStart(variant, subscribed)
         then Writes(Subscription(run.outcome.value)) else [])
  }

  /** Everything about a field that its methods change. */
  datatype FieldState = FieldState(
    subscribed: bool, hasStart: bool, deleted: bool, setupCalls: seq<SetupCall>,
    pending: seq<Value>, emitted: seq<Value>, held: seq<Act>,
    digestName: Option<string>, forwardFrom: Option<nat>)

  /** The state after the `onEvent` forwarder subscribes. The forwarder
      starts at the current end of the events, and in the older version the
      bus then subscribes to the result plugged into it, whose events the
      forwarder therefore sees. */
  function Subscribing(variant: Variant, s: FieldState): (r: FieldState)
    ensures r.subscribed && r.held == []
    ensures r.emitted == s.emitted + Events(s.held)
    ensures r.forwardFrom == (if s.forwardFrom.Some? then s.forwardFrom else Some(|s.emitted|))
    ensures s.subscribed ==> r.hasStart == s.hasStart
    ensures r.(subscribed := s.subscribed, hasStart := s.hasStart, forwardFrom := s.forwardFrom,
               emitted := s.emitted, held := s.held) == s
  {
    s.(subscribed := true,
       hasStart := s.hasStart || (variant == Dist && !s.subscribed),
       emitted := s.emitted + Events(s.held),
       held := [],
       forwardFrom := if s.forwardFrom.Some? then s.forwardFrom else Some(|s.emitted|))
  }

  /** Subscribing a second time changes nothing more. */
  lemma SubscribingIdempotent(variant: Variant, s: FieldState)
    ensures Subscribing(variant, Subscribing(variant, s)) == Subscribing(variant, s)
  {
    assert Subscribing(variant, s).emitted + Events([]) == Subscribing(variant, s).emitted;
  }

  class Field {
    const variant: Variant
    const kind: Kind
    /** The observable: `observable()` returns this same object every time. */
    const me: ObjId
    /** Whether the observable has a subscriber. */
    var subscribed: bool
    /** Whether the field has a `start` method. */
    var hasStart: bool
    /** Whether `start` ran to completion and deleted itself. */
    var deleted: bool
    var setupCalls: seq<SetupCall>
    /** `Dist`: values handed to `asyncSink` whose timer has not fired yet,
        in firing order. */
    var pending: seq<Value>
    /** The events of the observable so far. */
    var emitted: seq<Value>
    /** `Src`: what the result plugged into the bus does once the bus
        subscribes to it, which it does on its first subscriber. */
    var held: seq<Act>
    /** `Dist`: the name the installed `doAction` hook writes under. */
    var digestName: Option<string>
    /** Where in `emitted` the circuit's `onEvent` forwarder started. */
    var forwardFrom: Option<nat>

    function State(): FieldState
      reads this
    {
      FieldState(subscribed, hasStart, deleted, setupCalls, pending, emitted, held, digestName, forwardFrom)
    }

    ghost predicate Valid()
      reads this
    {
      && (variant == Src ==> pending == [] && digestName == None)
      && (variant == Dist ==> held == [])
      && (held != [] ==> !subscribed)
      && (variant == Dist && (hasStart || setupCalls != []) ==> subscribed)
      && (variant == Dist && setupCalls == [] ==> pending == [] && emitted == [])
      && (deleted ==> !hasStart && setupCalls != [])
      && (forwardFrom.Some? ==> forwardFrom.value <= |emitted|)
    }

    /** `new Field(setup, Type)` with the observable `me`. */
    constructor (variant: Variant, t: TypeArg, me: ObjId)
      ensures Valid()
      ensures this.variant == variant && kind == KindOf(t) && this.me == me
      ensures !subscribed && hasStart == (variant == Src) && !deleted
      ensures setupCalls == [] && pending == [] && emitted == [] && held == []
      ensures digestName == None && forwardFrom == None
    {
      this.variant := variant;
      kind := KindOf(t);
      this.me := me;
      subscribed := false;
      hasStart := variant == Src;
      deleted := false;
      setupCalls := [];
      pending := [];
      emitted := [];
      held := [];
      digestName := None;
      forwardFrom := None;
    }

    /** The events the circuit's forwarder has seen. */
    function Forwarded(): seq<Value>
      requires Valid()
      reads this
    {
      if forwardFrom.Some? then emitted[forwardFrom.value..] else []
    }

    /** A forwarder that started at the first event sees every event. */
    lemma ForwardsAll()
      requires Valid() && forwardFrom == Some(0)
      ensures Forwarded() == emitted
    {
      assert emitted[0..] == emitted;
    }

    /** A subscription to the observable. In `Dist` the first one runs the
        binder, which installs `start`; in `Src` the first one makes the bus
        subscribe to the result plugged into it, which emits its events and
        makes its calls into the circuit, `writes`. */
    method Subscribe() returns (writes: seq<Effect>)
      requires Valid()
      modifies this
      ensures Valid()
      ensures subscribed && held == []
      ensures hasStart == (old(hasStart) || (variant == Dist && !old(subscribed)))
      ensures emitted == old(emitted) + Events(old(held)) && writes == Writes(old(held))
      ensures deleted == old(deleted) && setupCalls == old(setupCalls) && pending == old(pending)
      ensures digestName == old(digestName) && forwardFrom == old(forwardFrom)
    {
      if variant == Dist && !subscribed {
        hasStart := true;
      }
      subscribed := true;
      writes := Writes(held);
      emitted := emitted + Events(held);
      held := [];
    }

    /** The circuit's `observable().subscribe(...)` that forwards every
        later event to `onEvent`. */
    method SubscribeForwarder() returns (writes: seq<Effect>)
      requires Valid()
      modifies this
      ensures Valid()
      ensures State() == Subscribing(variant, old(State()))
      ensures writes == Writes(old(held))
      ensures variant == Dist ==> writes == []
    {
      if forwardFrom.None? {
        forwardFrom := Some(|emitted|);
      }
      writes := Subscribe();
    }

    /** `field.start(context, name, circuit)` with the setup doing `run`.
        The calls into the circuit that the setup and, when subscribed at
        once, its result make (`StartWrites`) are the caller's to run; when
        one of them throws, the caller passes a `run` whose outcome is
        `None`. */
    method Start(context: ObjId, name: string, circuit: ObjId, run: SetupRun) returns (r: StartOutcome)
      requires Valid()
      modifies this
      ensures Valid()
      ensures !old(hasStart) ==> r == NotAFunction && unchanged(this)
      ensures old(hasStart) ==>
        var t := if run.outcome.Some? then Subscription(run.outcome.value) else [];
        && setupCalls == old(setupCalls) + [SetupCall(context, if variant == Dist then Some(me) else None, name, circuit)]
        && subscribed == old(subscribed) && forwardFrom == old(forwardFrom)
        && (run.outcome.None? ==> r == Threw && hasStart && deleted == old(deleted))
        && (run.outcome.Some? ==> r == Started && !hasStart && deleted)
        && (variant == Src ==> pending == old(pending) && digestName == old(digestName))
        && (variant == Src && old(subscribed) ==> emitted == old(emitted) + Events(t) && held == old(held))
        && (variant == Src && !old(subscribed) ==> emitted == old(emitted) && held == old(held) + t)
        && (variant == Dist ==>
              && emitted == old(emitted) && held == old(held)
              && pending == old(pending) + run.sunk + Events(t)
              && digestName == (if run.digest then Some(name) else old(digestName)))
    {
      if !hasStart {
        return NotAFunction;
      }
      setupCalls := setupCalls + [SetupCall(context, if variant == Dist then Some(me) else None, name, circuit)];
      if variant == Dist {
        if run.digest {
          digestName := Some(name);
        }
        pending := pending + run.sunk;
      }
      if run.outcome.None? {
        return Threw;
      }
      var t := Subscription(run.outcome.value);
      if variant == Dist {
        pending := pending + Events(t);
      } else if subscribed {
        emitted := emitted + Events(t);
      } else {
        held := held + t;
      }
      hasStart := false;
      deleted := true;
      r := Started;
    }

    /** The next `asyncSink` timer fires: its value becomes an event of the
        observable and, with the hook installed, is written to the circuit. */
    method Deliver() returns (w: Option<Effect>)
      requires Valid()
      modifies this
      ensures Valid()
      ensures old(pending) == [] ==> w == None && unchanged(this)
      ensures old(pending) != [] ==>
        && pending == old(pending)[1..] && emitted == old(emitted) + [old(pending)[0]]
        && w == (if digestName.Some? then Some(FaceSet(digestName.value, old(pending)[0])) else None)
      ensures subscribed == old(subscribed) && hasStart == old(hasStart) && deleted == old(deleted)
      ensures setupCalls == old(setupCalls) && digestName == old(digestName) && forwardFrom == old(forwardFrom)
      ensures held == old(held)
    {
      if pending == [] {
        return None;
      }
      var v := pending[0];
      pending := pending[1..];
      emitted := emitted + [v];
      w := if digestName.Some? then Some(FaceSet(digestName.value, v)) else None;
    }

    /** All pending timers fire, in the order their values were sunk. */
    method Drain() returns (writes: seq<Effect>)
      requires Valid()
      modifies this
      ensures Valid()
      ensures pending == [] && emitted == old(emitted) + old(pending)
      ensures writes == (if digestName.Some? then DigestEffects(digestName.value, old(pending)) else [])
      ensures subscribed == old(subscribed) && hasStart == old(hasStart) && deleted == old(deleted)
      ensures setupCalls == old(setupCalls) && digestName == old(digestName) && forwardFrom == old(forwardFrom)
      ensures held == old(held)
    {
      writes := [];
      ghost var all := pending;
      ghost var k := 0;
      while pending != []
        invariant Valid()
        invariant 0 <= k <= |all| && pending == all[k..] && emitted == old(emitted) + all[..k]
        invariant writes == (if digestName.Some? then DigestEffects(digestName.value, all[..k]) else [])
        invariant subscribed == old(subscribed) && hasStart == old(hasStart) && deleted == old(deleted)
        invariant setupCalls == old(setupCalls) && digestName == old(digestName) && forwardFrom == old(forwardFrom)
        invariant held == old(held)
        decreases |pending|
      {
        var w := Deliver();
        assert all[..k + 1] == all[..k] + [all[k]];
        if w.Some? {
          writes := writes + [w.value];
          DigestEffectsAppend(digestName.value, all[..k], [all[k]]);
        }
        k := k + 1;
      }
      assert all[..k] == all;
    }
  }

  // ---------------------------------------------------------------------
  // combinators: each turns what the user's setup does into what the
  // field's own setup does

  /** `expose`: `circuit.set(name, observable)` comes before everything the
      user's setup does, which is otherwise unchanged. */
  function Expose(name: string, me: ObjId, user: SetupRun): (r: SetupRun)
    ensures |r.effects| == |user.effects| + 1 && r.effects[0] == FaceSet(name, Obj(me))
    ensures r.effects[1..] == user.effects
    ensures r.sunk == user.sunk && r.digest == user.digest && r.outcome == user.outcome
  {
    user.(effects := [FaceSet(name, Obj(me))] + user.effects)
  }

  /** `function` (older) and `method` (newer): the setup itself does
      nothing but return a stream whose binder, once subscribed, publishes
      the function object `fn` under `name`; the stream then emits what the
      latest call lets through, for the calls and events `items`. */
  function Method(name: string, fn: ObjId, items: seq<Item>): (r: SetupRun)
    ensures r.effects == [] && r.sunk == [] && !r.digest && r.outcome.Some? && !r.outcome.value.Plain?
    ensures Writes(Subscription(r.outcome.value)) == [FaceSet(name, Obj(fn))]
    ensures Plugged(r.outcome.value) == LatestWins(items)
  {
    ActsCons(Write(FaceSet(name, Obj(fn))), AsEvents(LatestWins(items)));
    SetupRun([], [], false, Some(StreamOf([Write(FaceSet(name, Obj(fn)))] + AsEvents(LatestWins(items)))))
  }

  /** The older `digest`: `setup(...).doAction(v => circuit.set(name, v))`
      on the returned observable, so each event is written as it passes,
      which is once the result is subscribed. Calling `doAction` on a
      non-observable result throws. */
  function SrcDigest(name: string, user: SetupRun): (r: SetupRun)
    ensures user.outcome.None? || user.outcome.value.Plain? <==> r.outcome.None?
    ensures r.outcome.Some? ==>
      && !r.outcome.value.Plain?
      && Plugged(r.outcome.value) == Plugged(user.outcome.value)
      && Subscription(r.outcome.value) == Digested(name, Subscription(user.outcome.value))
      && (Writes(Subscription(user.outcome.value)) == [] ==>
            Writes(Subscription(r.outcome.value)) == DigestEffects(name, Plugged(r.outcome.value)))
    ensures r.effects == user.effects && r.sunk == user.sunk && r.digest == user.digest
  {
    if user.outcome.None? then user
    else if user.outcome.value.Plain? then user.(outcome := None)
    else
      var o := user.outcome.value;
      DigestedTrace(name, o.trace);
      user.(outcome := Some(if o.PropertyOf? then PropertyOf(Digested(name, o.trace))
                            else StreamOf(Digested(name, o.trace))))
  }

  /** The newer `digest`: installs the hook on the field's own observable
      before running the user's setup, so values the setup sinks are written
      as well as values of the stream it returns. */
  function DistDigest(user: SetupRun): (r: SetupRun)
    ensures r.digest
    ensures r.effects == user.effects && r.sunk == user.sunk && r.outcome == user.outcome
  {
    user.(digest := true)
  }

  /** What a watch merges, given what its `merge` returned. The older
      version hands that straight to `mergeAll`, which throws on subscribing
      to anything that is not an observable (`None`). The newer one takes
      `merge && merge.call(...)` or else `never`: a falsy value stands for
      `never`, and a truthy non-observable still makes `mergeAll` throw. */
  function WatchSource(variant: Variant, merged: Returned): (r: Option<seq<Act>>)
    ensures !merged.Plain? ==> r == Some(merged.trace)
    ensures merged.Plain? && variant == Src ==> r.None?
    ensures merged.Plain? && variant == Dist ==> (r.None? <==> Truthy(merged.value)) && (r.Some? ==> r.value == [])
  {
    if !merged.Plain? then Some(merged.trace)
    else if variant == Src || Truthy(merged.value) then None
    else Some([])
  }

  /** What a watch does when no `merge` is given: the older version
      substitutes `function () { return Bacon.never(); }`; the newer one
      calls nothing and keeps `undefined`. */
  function NoMerge(variant: Variant): SetupRun
  {
    SetupRun([], [], false, Some(if variant == Src then StreamOf([]) else Plain(Undefined)))
  }

  /** Either way, a watch without `merge` merges `never`. */
  lemma NoMergeIsNever(variant: Variant)
    ensures NoMerge(variant).outcome.Some?
    ensures WatchSource(variant, NoMerge(variant).outcome.value) == Some([])
  {
  }

  /** What subscribing `mergeAll(merged, feed).skipDuplicates()` does:
      `mergeAll` subscribes the merged source `m` first, so what `m` does at
      once comes first; then the feed's binder registers `cb` under `name`;
      `rest` are the events that arrive after that, from either source. */
  function WatchTrace(m: seq<Act>, name: string, cb: ListenerId, rest: seq<Value>): seq<Act>
  {
    SkipActs(None, m + [Write(FaceWatch(name, cb))] + AsEvents(rest))
  }

  /** The watch stream emits the merged source's events and then the rest,
      without consecutive repeats, and registers `cb` after what the merged
      source does; with a merged source that makes no calls, its early events
      come before the registration and the rest after it. */
  lemma WatchTraceShape(m: seq<Act>, name: string, cb: ListenerId, rest: seq<Value>)
    ensures Events(WatchTrace(m, name, cb, rest)) == WatchStream(Events(m), rest)
    ensures NoRepeats(Events(WatchTrace(m, name, cb, rest)))
    ensures Writes(WatchTrace(m, name, cb, rest)) == Writes(m) + [FaceWatch(name, cb)]
    ensures WatchTrace(m, name, cb, rest)
         == SkipActs(None, m) + [Write(FaceWatch(name, cb))] + SkipActs(LastOf(None, Events(m)), AsEvents(rest))
  {
    var w := [Write(FaceWatch(name, cb))];
    var e := AsEvents(rest);
    var all := m + w + e;
    assert Events(w) == [] && Writes(w) == [FaceWatch(name, cb)] by {
      ActsCons(Write(FaceWatch(name, cb)), []);
      assert w == [Write(FaceWatch(name, cb))] + [];
    }
    assert Events(m + w) == Events(m) && Writes(m + w) == Writes(m) + [FaceWatch(name, cb)] by {
      ActsAppend(m, w);
    }
    assert Events(all) == Events(m) + rest && Writes(all) == Writes(m) + [FaceWatch(name, cb)] by {
      ActsAppend(m + w, e);
    }
    SkipActsTrace(None, all);
    assert SkipActs(None, all) == SkipActs(None, m + w) + SkipActs(LastOf(None, Events(m)), e) by {
      SkipActsAppend(None, m + w, e);
    }
    assert SkipActs(LastOf(None, Events(m)), w) == w by {
      assert w[0].Write? && w[1..] == [];
    }
    assert SkipActs(None, m + w) == SkipActs(None, m) + w by {
      SkipActsAppend(None, m, w);
    }
  }

  /** The stream-building part of `watch`, given what the user's `merge`
      does and the listener `cb` the watch feed registers under `name`. */
  function WatchRun(variant: Variant, name: string, cb: ListenerId, merge: SetupRun, rest: seq<Value>): (r: SetupRun)
    ensures r.effects == merge.effects && r.sunk == merge.sunk && !r.digest
    ensures r.outcome.None? <==> merge.outcome.None?
    ensures r.outcome.Some? ==> !r.outcome.value.Plain?
  {
    if merge.outcome.None? then SetupRun(merge.effects, merge.sunk, false, None)
    else
      var src := WatchSource(variant, merge.outcome.value);
      if src.None? then SetupRun(merge.effects, merge.sunk, false, Some(StreamOf([Write(Throws)])))
      else SetupRun(merge.effects, merge.sunk, false, Some(StreamOf(WatchTrace(src.value, name, cb, rest))))
  }

  /** The older `watch`: `digest` of the watch stream. Subscribing it
      throws when the merged value is not an observable. Otherwise its
      events are the watch stream's and each is written back as it passes:
      for a merged source that makes no calls of its own, its early values
      are written before `cb` is registered and the rest after. */
  function SrcWatch(name: string, cb: ListenerId, merge: SetupRun, rest: seq<Value>): (r: SetupRun)
    ensures r.effects == merge.effects && (r.outcome.None? <==> merge.outcome.None?)
    ensures merge.outcome.Some? && merge.outcome.value.Plain? ==>
      Writes(Subscription(r.outcome.value)) == [Throws] && Plugged(r.outcome.value) == []
    ensures merge.outcome.Some? && !merge.outcome.value.Plain? ==>
      var m := merge.outcome.value.trace;
      && Plugged(r.outcome.value) == WatchStream(Events(m), rest)
      && NoRepeats(Plugged(r.outcome.value))
      && (Writes(m) == [] ==>
            Writes(Subscription(r.outcome.value))
            == DigestEffects(name, SkipDuplicates(Events(m))) + [FaceWatch(name, cb)]
               + DigestEffects(name, SkipFrom(LastOf(None, Events(m)), rest)))
  {
    SrcWatchProof(name, cb, merge, rest);
    SrcDigest(name, WatchRun(Src, name, cb, merge, rest))
  }

  lemma SrcWatchProof(name: string, cb: ListenerId, merge: SetupRun, rest: seq<Value>)
    ensures var r := SrcDigest(name, WatchRun(Src, name, cb, merge, rest));
      && (merge.outcome.Some? && merge.outcome.value.Plain? ==>
            Writes(Subscription(r.outcome.value)) == [Throws] && Plugged(r.outcome.value) == [])
      && (merge.outcome.Some? && !merge.outcome.value.Plain? ==>
            var m := merge.outcome.value.trace;
            && Plugged(r.outcome.value) == WatchStream(Events(m), rest)
            && (Writes(m) == [] ==>
                  Writes(Subscription(r.outcome.value))
                  == DigestEffects(name, SkipDuplicates(Events(m))) + [FaceWatch(name, cb)]
                     + DigestEffects(name, SkipFrom(LastOf(None, Events(m)), rest))))
  {
    if merge.outcome.Some? {
      if merge.outcome.value.Plain? {
        var t := [Write(Throws)];
        assert Events(t) == [] && Writes(t) == [Throws] by {
          ActsCons(Write(Throws), []);
          assert t == [Write(Throws)] + [];
        }
        assert Digested(name, t) == t by {
          assert t[1..] == [];
        }
      } else {
        var m := merge.outcome.value.trace;
        WatchTraceShape(m, name, cb, rest);
        if Writes(m) == [] {
          WatchDigestWrites(name, cb, m, rest);
        }
      }
    }
  }

  /** The digest of a watch trace whose merged source makes no calls. */
  lemma WatchDigestWrites(name: string, cb: ListenerId, m: seq<Act>, rest: seq<Value>)
    requires Writes(m) == []
    ensures Writes(Digested(name, WatchTrace(m, name, cb, rest)))
         == DigestEffects(name, SkipDuplicates(Events(m))) + [FaceWatch(name, cb)]
            + DigestEffects(name, SkipFrom(LastOf(None, Events(m)), rest))
  {
    WatchTraceShape(m, name, cb, rest);
    var w := [Write(FaceWatch(name, cb))];
    var a, b := SkipActs(None, m), SkipActs(LastOf(None, Events(m)), AsEvents(rest));
    assert Writes(a) == [] && Events(a) == SkipDuplicates(Events(m)) by {
      SkipActsTrace(None, m);
    }
    assert Writes(b) == [] && Events(b) == SkipFrom(LastOf(None, Events(m)), rest) by {
      SkipActsTrace(LastOf(None, Events(m)), AsEvents(rest));
    }
    assert Digested(name, a + w + b) == Digested(name, a) + w + Digested(name, b) by {
      DigestedAppend(name, a + w, b);
      DigestedAppend(name, a, w);
      assert Digested(name, w) == w by {
        assert w[1..] == [];
      }
    }
    DigestedTrace(name, a);
    DigestedTrace(name, b);
    assert Writes(w) == [FaceWatch(name, cb)] by {
      ActsCons(Write(FaceWatch(name, cb)), []);
      assert w == [Write(FaceWatch(name, cb))] + [];
    }
    ActsAppend(Digested(name, a) + w, Digested(name, b));
    ActsAppend(Digested(name, a), w);
  }

  /** The newer `watch`: the hook digests both the watch stream and what
      `merge` sinks, whose values bypass duplicate suppression. Subscribing
      the stream, which happens inside `start`, registers `cb` after what
      the merged source does, or throws when the merged value is a truthy
      non-observable. */
  function DistWatch(name: string, cb: ListenerId, merge: SetupRun, rest: seq<Value>): (r: SetupRun)
    ensures r.digest && r.effects == merge.effects && r.sunk == merge.sunk
    ensures r.outcome.None? <==> merge.outcome.None?
    ensures merge.outcome.Some? ==>
      var src := WatchSource(Dist, merge.outcome.value);
      && (src.None? ==> Writes(Subscription(r.outcome.value)) == [Throws] && Plugged(r.outcome.value) == [])
      && (src.Some? ==>
            && Plugged(r.outcome.value) == WatchStream(Events(src.value), rest)
            && NoRepeats(Plugged(r.outcome.value))
            && Writes(Subscription(r.outcome.value)) == Writes(src.value) + [FaceWatch(name, cb)])
  {
    DistWatchProof(name, cb, merge, rest);
    DistDigest(WatchRun(Dist, name, cb, merge, rest))
  }

  lemma DistWatchProof(name: string, cb: ListenerId, merge: SetupRun, rest: seq<Value>)
    ensures var r := WatchRun(Dist, name, cb, merge, rest);
      merge.outcome.Some? ==>
      var src := WatchSource(Dist, merge.outcome.value);
      && (src.None? ==> Writes(Subscription(r.outcome.value)) == [Throws] && Plugged(r.outcome.value) == [])
      && (src.Some? ==>
            && Plugged(r.outcome.value) == WatchStream(Events(src.value), rest)
            && Writes(Subscription(r.outcome.value)) == Writes(src.value) + [FaceWatch(name, cb)])
  {
    if merge.outcome.Some? {
      var src := WatchSource(Dist, merge.outcome.value);
      if src.None? {
        ActsCons(Write(Throws), []);
      } else {
        WatchTraceShape(src.value, name, cb, rest);
      }
    }
  }
}
