# bacon.circuit in Dafny

bacon.circuit wires named reactive *fields* into a *circuit* and publishes
their values on a plain JavaScript object, the *face*. It does four things:

- A circuit is built from any number of definition maps, in nested arrays
  and nested maps. The circuit flattens them into one map from dotted name
  to field.
- It puts every field's observable into a *context* object.
- It starts every field once, with that context, the field's name and the
  circuit. It also subscribes its `onEvent` forwarder to every field.
- A field's setup talks to the face through `circuit.set(path, value)` and
  `circuit.watch(path, cb)`. On first touch, a path on the face becomes an
  accessor that stores a value and calls every registered listener on each
  assignment.

The repository holds two versions:

- **Older version** (`src/circuit.js`, `src/field.js`). The setup receives
  `(name, circuit)`. The field is a bus that `start` plugs the setup's
  result into, and the circuit starts the fields before it subscribes to
  them.
- **Newer version** (`dist/bacon.circuit.js`). The setup receives
  `(asyncSink, me, name, circuit)`. `start` is installed when the
  observable is first subscribed, and every value reaches the observable
  through a timer. `digest` is a `doAction` hook on the field's own
  observable, and the circuit subscribes before it starts. The repository's
  tests use this version's API.

The two versions share the circuit logic, which is modelled once. A
`Variant` (`Src` or `Dist`) selects the behaviour where they differ.

Modules, in dependency order:

- **`Values`**: JavaScript values. An object is an id on the heap, so `===`
  on objects is equality of ids. The `arguments` object of a call of a
  published function carries the number of its call, so two calls never
  produce `===` arguments objects.
- **`Paths`**: `split('.')` and `join('.')`.
- **`Definitions`**: definition trees, and the pure builders:
  - `flattenArray`;
  - `unnestKeys`;
  - the constructor's merge loop;
  - JavaScript objects used as dictionaries, kept as insertion-ordered
    association lists.
- **`Face`**: the heap of objects, and `findLeaf` / `setObjectProp` /
  `set` / `watch`. Each is a pure function plus a method of class `Heap`
  that does the same thing in place, loop by loop. The setter closure's
  `value` and `listeners` live in the accessor's slot.
- **`Streams`**: the stream operators the combinators use, modelled as
  functions on finite event traces:
  - `skipDuplicates`;
  - `flatMapLatest` over the calls of a published function;
  - the Bus → Property → EventStream normalisation of a setup's result;
  - the `watch` stream.
- **`Fields`**: class `Field` with its one-shot `start`, its subscription,
  its timer queue and its `doAction` hook, plus the combinators `expose`,
  `function`/`method`, `digest` and `watch`. A combinator is a function
  from what the user's setup does to what the field's setup does.
- **`Circuits`**: class `Circuit`. Its constructor runs these loops, in
  the order of its version:
  1. the merge loop;
  2. the context loop;
  3. the start and subscribe loops.

  The setups' writes to the face go through the heap. `Schedule` is the
  order of the constructor's loop turns, and the constructor's `log`
  records the turns it takes.

A setup is foreign code. What one call of it does is a parameter of the
model (`SetupRun`), made of four parts:

- the `set`/`watch` calls it makes;
- the values it sinks;
- whether it installs the digest hook;
- what it returns, or that it throws.

## Model

| member | source | states |
|---|---|---|
| Paths.Split | src/circuit.js:60 | a path splits into one more segment than it has dots, none of which holds a dot |
| Paths.JoinSplit | src/circuit.js:60 | joining the segments of a split path gives the path back |
| Paths.SplitJoin | src/circuit.js:120 | splitting the dotted key that `unnestKeys` joins from dot-free keys gives those keys back, so `findLeaf` walks the same keys |
| Definitions.FlattenAppend | src/circuit.js:133-142 | flattening distributes over concatenation, so the order of the arguments is the order of the result |
| Definitions.Flatten | src/circuit.js:133-142 | the result holds exactly one item per non-array leaf of the nested input, counted independently |
| Definitions.FlattenOne | src/circuit.js:135-139 | an array item contributes one item per non-array leaf inside it; any other item is pushed unchanged |
| Definitions.NestingIrrelevant | src/circuit.js:136-137 | wrapping the arguments in another array does not change the result |
| Definitions.FlattenFlat | src/circuit.js:133-142 | a list without arrays is returned unchanged |
| Definitions.Put | src/circuit.js:20 | a key assignment makes every lookup behave as if the pair were appended; it keeps keys distinct, keeps an existing key's place and adds a new key last |
| Definitions.PutAll | src/circuit.js:125-128 | copying a map in key by key makes every lookup behave as in the concatenation, and keeps keys distinct |
| Definitions.Unnest | src/circuit.js:109-131 | the flat map that `unnestKeys` builds has each key once |
| Definitions.UnnestLookup | src/circuit.js:109-131 | the field stored under a dotted key is the last field leaf of the nested map whose key path joins to that key, found by a reference enumeration of the leaves that never descends into a field; a key is present exactly when such a leaf exists |
| Definitions.UnnestNodeLookup | src/circuit.js:15-17 | the same, for one item of the flattened argument list; an item that is not a map contributes nothing |
| Definitions.Merge | src/circuit.js:15-22 | the merged field map has each key once |
| Definitions.MergeOverrides | src/circuit.js:17-21 | a later definition map overrides earlier ones at the keys it defines; all other keys keep the earlier field |
| Definitions.MergeLookup | src/circuit.js:15-22 | the merged map stores under each key the last field leaf, over all maps in order, whose path joins to that key |
| Streams.SkipDuplicatesChanges | src/field.js:90 | `skipDuplicates` equals a reference definition that keeps the first event and each event that differs from the input event just before it |
| Streams.SkipDuplicates | src/field.js:90 | the output never has the same value twice in a row, and is no longer than the input |
| Streams.SkipFrom | dist/bacon.circuit.js:261 | after having emitted `prev`, the output is no longer than the input and does not begin with `prev` |
| Streams.SkipDuplicatesIdempotent | src/field.js:90 | a trace without consecutive repeats passes unchanged, so applying the operator twice equals applying it once |
| Streams.SkipDuplicatesPrefix | src/field.js:90 | the output for a prefix of the input is a prefix of the output, and later input only appends |
| Streams.LatestWins | src/field.js:51-63 | each emitted item passes at most once and a call passes nothing itself: the output's length plus the number of calls is at most the number of items |
| Streams.RunLatest | src/field.js:51-63 | the generation-counter loop outputs exactly the latest-wins trace of its input |
| Streams.LatestWinsDropsStale | dist/bacon.circuit.js:217-235 | an event of a call made before a later call is dropped, however late it arrives |
| Streams.LatestWinsKeepsCurrent | dist/bacon.circuit.js:217-235 | an event of the most recent call gets through |
| Streams.LatestWinsSyncCalls | src/field.js:51-63 | if every call emits one value at once, every value gets through, in call order |
| Streams.DistDefaultEvents | dist/bacon.circuit.js:212-214 | with the default transform of `method`, each call yields one event that carries all of its arguments in order, and two calls give two different events even with equal arguments |
| Streams.SrcDefaultEvents | src/field.js:48 | with the default transform of `function`, each call yields one undefined event, whatever its arguments |
| Streams.DistPromiseResolvesWithEvent | dist/bacon.circuit.js:223-230 | a call returns a promise exactly when the promise constructor is truthy, and the value it resolves with is an event the field emitted |
| Streams.DistPromiseResolves | dist/bacon.circuit.js:228-229 | the first event of the current call resolves that call's pending promise and is emitted by the field |
| Streams.DistPromiseCancelled | dist/bacon.circuit.js:228-235 | a later event of a superseded call leaves that call's promise as it was |
| Streams.PromiseSettles | src/field.js:57-58 | a resolved promise keeps its value whatever happens later, in both versions |
| Streams.PromiseAfterCancel | src/field.js:57-58 | for fn(1), fn(2), then the first call's 1, the field emits nothing; the older promise of fn(1) resolves with 1, the newer one stays pending |
| Streams.MethodCancelsAtCall | dist/bacon.circuit.js:217-235 | for fn(1), emit 1, fn(2), late "drop me", fn(3), emit 3, the output is [1, 3]: fn(2) cancels although it never emits |
| Streams.Normalize | src/field.js:17-20 | a bus, a property or a stream result becomes a stream with the same events; any other result is left alone |
| Streams.Plugged | src/field.js:21-22 | the field receives exactly the events of an observable result, and none for any other result |
| Streams.Subscription | src/field.js:17-22 | the field subscribes to the whole trace of an observable result and to nothing for any other result |
| Streams.WatchStreamShape | dist/bacon.circuit.js:253-261 | the watch stream starts with the supplied source's early events, has no consecutive repeats, and equals the reference duplicate suppression of the merged trace |
| Streams.WatchDropsRepeats | dist/bacon.circuit.js:261 | [undefined,1,1,2,1,o1,o2] yields [undefined,1,2,1,o1,o2], two distinct objects being two values |
| Face.AddChild | src/circuit.js:70-71 | `obj[key] = {}` adds one new empty object under the missing key and changes no other property |
| Face.Walk | src/circuit.js:59-79 | walking a path changes no existing property's value; without `create` it changes nothing; a leaf found is keyed by the last segment |
| Face.WalkWellFormed | src/circuit.js:59-79 | a walk keeps every stored reference pointing to an existing object, and every created object is newer than its holder |
| Face.FindLeaf | src/circuit.js:59-79 | the leaf found is keyed by the path's last segment, which holds no dot; no property changes its value, and without `create` nothing changes |
| Face.WalkStable | src/circuit.js:70-73 | a leaf once found is found again, creating nothing, in every heap that has only grown, so intermediate objects are reused |
| Face.WalkCreates | src/circuit.js:70-73 | a creating walk either creates nothing and finds what a plain walk finds, or ends at a fresh object that has no properties and that a plain walk of the old heap cannot reach |
| Face.ReadHolder | src/circuit.js:59-79 | a plain walk and a JavaScript read of all keys but the last agree on the object holding the leaf |
| Face.Calls | src/circuit.js:88-90 | a setter calls every listener once, in registration order, with the new value |
| Face.Assign | src/circuit.js:86-91 | an assignment to an accessor keeps its listener list, stores the value and returns one call per listener; any other assignment makes a data property and calls nothing; no other property changes |
| Face.SetObjectProp | src/circuit.js:81-107 | without a value, no property changes its value and no listener is called; the heap only grows |
| Face.SetObjectPropWellFormed | src/circuit.js:81-107 | setting a valid value keeps the heap well-formed, and storing a non-object keeps it ranked |
| Face.SetThenRead | src/circuit.js:45-48 | after a `set(path, v)` that does not throw, reading the face at `path` gives `v` |
| Face.WalkAfterLeafWrite | src/circuit.js:81-106 | writing the leaf that a walk found leaves the walk unchanged, so a later `set` on the path finds the same leaf |
| Face.SetOverwrites | src/circuit.js:45-48 | of two sets on the same path, whatever the first one stored, the second does not throw and the path then reads the second value |
| Face.Watch | src/circuit.js:49-55 | `watch` only adds objects and properties |
| Face.WatchWellFormed | src/circuit.js:49-55 | `watch` keeps the heap well-formed and changes no property's value |
| Face.ListenersBefore | src/circuit.js:84-103 | the accessor is made only on first touch: a later touch keeps the leaf's listener list, and a first touch gives it an empty one |
| Face.WatchThenSet | src/circuit.js:49-55 | `watch` appends the callback to the leaf's listeners; a later `set(path, v)` calls all of them with `v`, in order, ending with the new one, also on a path that did not exist |
| Face.WatchKeepsValue | src/circuit.js:105-106 | `watch` assigns nothing: the path then reads its leaf's old value, or undefined for a leaf that did not exist |
| Face.WatchedAfterWatch | src/circuit.js:49-55 | after a successful watch the leaf is an accessor |
| Face.DirectAssignCallsListeners | src/circuit.js:86-91 | a direct assignment `face.a.b = v` to a watched leaf calls each of its listeners once, in registration order, with `v` |
| Face.WatchTwiceThenAssign | src/circuit.js:49-55 | a callback watched twice on a leaf without listeners is called twice by one direct assignment |
| Face.Heap.NewObject | src/circuit.js:26 | `{}` appends one empty object and keeps the heap well-formed |
| Face.Heap.FindLeafAt | src/circuit.js:59-79 | the loop over the keys leaves the heap and returns the leaf exactly as `Walk` describes |
| Face.Heap.AssignAt | src/circuit.js:86-91 | the setter's loop over its listeners makes exactly the calls `Assign` describes, and the heap becomes what `Assign` describes |
| Face.Heap.SetObjectPropAt | src/circuit.js:81-107 | in place, exactly `SetObjectProp`; keeps the heap well-formed when the stored value is valid |
| Face.Heap.WatchAt | src/circuit.js:49-55 | in place, exactly `Watch` |
| Fields.KindOf | src/field.js:6-8 | the observable is an event stream exactly when the type is `Bacon.EventStream`, and a property otherwise, also when no type is given |
| Streams.DigestEffects | src/field.js:70-72 | one `circuit.set(name, v)` per event, in event order |
| Streams.DigestedTrace | src/field.js:70-72 | the digest `doAction` passes every event on unchanged and, on a trace of events alone, writes each of them under the name, in order |
| Fields.Subscribing | src/field.js:22 | a subscription starts the forwarder at the current end of the events; in the older version it then releases the held result, whose events follow; a first subscription in the newer version installs `start`; nothing else changes |
| Fields.SubscribingIdempotent | src/circuit.js:38-42 | a second subscription changes nothing more |
| Fields.Field.constructor | src/field.js:3-28 | a new field is unsubscribed, unstarted and has no events; only the older version has `start` from the outset |
| Fields.Field.Subscribe | dist/bacon.circuit.js:153-176 | a subscription never calls the setup; it installs `start` on first subscription (newer version) and releases the events and circuit calls of a result held by the older bus |
| Fields.Field.SubscribeForwarder | src/circuit.js:38-42 | the forwarder subscription changes the state as `Subscribing` says and returns the held result's calls into the circuit, none in the newer version |
| Fields.Field.ForwardsAll | src/circuit.js:38-42 | a forwarder that started at the first event has seen every event |
| Fields.Field.Start | src/field.js:14-27 | with no `start`, a TypeError and no change. Otherwise the setup is called once, with context, `me` (newer version only), name and circuit; if it returns, `start` is deleted; the normalised result's events go to the observable when the older bus already has a subscriber, are held for its first subscriber otherwise, and go to the timer queue after the sunk values in the newer version; if it throws, `start` stays |
| Fields.Field.Deliver | dist/bacon.circuit.js:154-158 | the oldest pending timer fires: its value becomes the next event, and with the hook installed it is written under the field's name |
| Fields.Field.Drain | dist/bacon.circuit.js:154-158 | all timers fire in the order their values were sunk; with the hook installed, each value is written in that order |
| Fields.Expose | src/field.js:38-45 | `circuit.set(name, observable)` comes before everything the user's setup does, which is otherwise unchanged |
| Fields.Method | src/field.js:47-65 | the function object is published under the field's name and the field's events are the latest-wins trace of the calls |
| Fields.SrcDigest | src/field.js:67-74 | every event of the returned observable is written under the name, in order, after the setup's own writes, and passes through unchanged; a non-observable result throws |
| Fields.DistDigest | dist/bacon.circuit.js:239-247 | the hook is installed and the user's setup is otherwise unchanged |
| Fields.WatchSource | src/field.js:77-83 | an observable `merge` result is merged as it is; in the older version any other result makes `mergeAll` throw; in the newer one a falsy result stands for `never` and a truthy non-observable throws |
| Fields.NoMergeIsNever | dist/bacon.circuit.js:251-252 | in both versions a watch without `merge` merges a source that emits nothing |
| Fields.WatchTraceShape | src/field.js:82-90 | the watch stream emits the merged source's events then the feed's, without consecutive repeats, and registers the callback after the merged source's own calls into the circuit |
| Fields.WatchRun | dist/bacon.circuit.js:249-263 | the watch registers its callback after the merge's writes, and its stream is duplicate suppression of the merge followed by the rest |
| Fields.SrcWatch | src/field.js:76-92 | the older watch's events are the duplicate-suppressed merge of the source and the feed; for a source that makes no calls, its early values are written back before the callback is registered and the later values after it, each in order; a non-observable merge result throws |
| Fields.DistWatch | dist/bacon.circuit.js:249-263 | the newer watch installs the digest hook, keeps the values `merge` sinks, emits a stream without consecutive repeats and registers the callback after the merged source's calls; a truthy non-observable throws |
| Circuits.ScheduleAt | dist/bacon.circuit.js:34-48 | turn `i` of the constructor is the context loop for the first n turns, then the first loop of its version, then the second, each taking the keys in order |
| Circuits.ContextBeforeStart | src/circuit.js:28-36 | in both versions every context turn comes before every start turn |
| Circuits.SubscribeOrder | dist/bacon.circuit.js:40-48 | a subscribe turn precedes a start turn exactly in the newer version |
| Circuits.StartedOnce | src/circuit.js:34-36 | with distinct keys, every key has exactly one start turn |
| Circuits.Schedule | src/circuit.js:28-42 | the constructor takes three turns per key: the context loop, then start and subscribe in the order of its version |
| Circuits.RunEffect | src/circuit.js:45-55 | a face write throws without calling listeners, or returns its listener calls; the heap only grows |
| Circuits.RunEffects | src/circuit.js:45-55 | a setup's writes only grow the heap, and the first one that throws stops them |
| Circuits.RunEffectsAppend | src/circuit.js:45-55 | running two lists of writes is running the first and then, unless it threw, the second from where the first left the face |
| Circuits.ExposePublishesFirst | src/field.js:38-45 | an exposed field's first write goes to the face before the user's, after which the face reads the observable at the field's name |
| Circuits.Circuit.constructor | src/circuit.js:3-43 | the fields are the merged definitions and the context is a new object. The turns taken are a prefix of the version's schedule, all of it when nothing threw; then every field was started exactly once with context, `me`, its name and the circuit, no field object is under two names, and every field's forwarder has seen every one of its events |
| Circuits.Circuit.Setup | src/circuit.js:26-42 | after the merge: the context loop, then the start and subscribe loops, taking a prefix of the schedule |
| Circuits.Circuit.Launch | dist/bacon.circuit.js:40-48 | the start and subscribe loops take the remaining turns of the schedule, stopping at a throw |
| Circuits.Circuit.StartThenSubscribe | src/circuit.js:34-42 | older version: all start turns, then all subscribe turns, in which the results held by the fields' buses make their calls into the circuit and emit; the subscribe loop is not reached after a throw and stops at a throwing write |
| Circuits.Circuit.SubscribeThenStart | dist/bacon.circuit.js:40-48 | newer version: all subscribe turns, then the start turns; every started field is forwarding from its first event |
| Circuits.Circuit.MergeDefinitions | src/circuit.js:15-22 | the merge loops compute exactly `Merge` of the flattened arguments |
| Circuits.Circuit.PutEach | src/circuit.js:18-21 | the inner loop assigns every key of an unnested map in order |
| Circuits.Circuit.FillContext | src/circuit.js:28-32 | the context loop tries the keys in order until a write throws, and keeps the heap well-formed |
| Circuits.Circuit.SubscribeAll | src/circuit.js:38-42 | every field is subscribed as `Subscribing` says, one subscribe turn per key; started fields stay started; in the newer version every field becomes ready to start |
| Circuits.Circuit.SubscribeLoop | src/circuit.js:38-42 | a field given under two keys is subscribed twice, which changes nothing more |
| Circuits.Circuit.SubscribeOne | src/circuit.js:39-41 | one subscription: the field changes as `Subscribing` says, and the calls into the circuit that it releases run through the heap exactly as `RunEffects` says |
| Circuits.Circuit.StartAll | src/circuit.js:34-36 | the start loop takes a prefix of the start turns, all of them when nothing threw; then every field was started once, with its own key, and no field object is under two names |
| Circuits.Circuit.StartLoop | src/circuit.js:34-36 | when no `start` was missing or threw, every field was started once with its own key and no field object is under two names |
| Circuits.Circuit.StartOne | src/field.js:14-27 | with no `start` nothing changes, not the field, the heap or the listener calls. Otherwise the setup is called once, with context, `me`, key and circuit; its writes, and those of a result subscribed at once, run through the heap as `RunEffects` says; `start` is deleted exactly when the setup returned and no write threw |
| Circuits.Circuit.ApplyEffects | src/circuit.js:45-55 | the setup's writes run through the heap in order, stop at the first throw and record the listener calls, exactly as `RunEffects` says |
| Circuits.Circuit.ApplyEffect | src/circuit.js:45-55 | one write through the heap, as `RunEffect` says |
| Circuits.Circuit.Set | src/circuit.js:45-48 | `circuit.set` on the heap is exactly `Face.Set` on the face |
| Circuits.Circuit.Watch | src/circuit.js:49-55 | `circuit.watch` on the heap is exactly `Face.Watch` on the face |
| Circuits.Circuit.Deliver | dist/bacon.circuit.js:178-185 | a fired timer's value becomes an event; with the digest hook installed it is `set` on the face and the listener calls of that set are recorded; otherwise nothing else changes |

## Left out

- Bacon.js is not part of this model. Bus, property, `fromBinder`, `mergeAll`, `flatMapLatest`, `skipDuplicates`, `toProperty` and `toEventStream` appear only through their effect on finite event traces. The `onEvent` forwarder is a start position in a field's event list. End and error events are not modelled.
- `setTimeout` in `asyncSink` is a first-in, first-out queue of pending values. No real time is modelled.
- Promises are modelled only by what a call returns (`CallReturns`): nothing, or a promise and the value it has resolved with. Rejection, and the promise constructor itself, are not modelled.
- `setup` is foreign code. What one call does is the parameter `SetupRun`: its face writes, its sunk values, its hook and its result. A setup that calls back into its own field, or reads the context, is not modelled.
- Interleaving is not modelled. Events that a stream emits while `mergeAll` interleaves two sources are given as one trace (`rest`), not derived from timing.
- Listener callbacks are ids. A setter returns the calls it makes instead of running them, so re-entrant listeners are not modelled.
- Only own properties are modelled: no prototypes. The empty-arguments bail-out for inheritance (src/circuit.js:6) and `onEvent`/`promiseConstructor` on the prototype are not modelled.
- `Object.defineProperty` is a slot kind. The misspelt `enumberable` key has no effect in the source and none in the model.
- A definition map's leaf that is neither a field nor a map is a node without entries. A string leaf, whose characters `for…in` would enumerate, is not modelled.
- Property enumeration is insertion order. Integer-like keys, which JavaScript enumerates first, are not distinguished.
- Numbers are integers. No floating point is modelled.
- An `arguments` object is a value, not an object on the heap. A path walked into one stored on the face reads undefined and a `set` through it throws, where JavaScript would use its properties.
- Unsubscription is not modelled. After unsubscribing, the newer field's binder can run again and reinstall `start`.
- The newer `watch` reassigns its closure's `merge` on each setup call. The model calls a setup at most once per `start`, so the reassignment has no later effect and is not modelled.
- The UMD wrapper (dist/bacon.circuit.js:1-6, 270), `Bacon.EventStream.field`/`Bacon.Property.field` (dist/bacon.circuit.js:267-268) and gulpfile.js are build or packaging code and are not modelled.
- Circuits.Circuit.FillContext: states only how many keys were tried and that the heap stays well-formed, not what the context reads at each key. A per-key read does not hold in general: with `a.b` before `a`, the first key creates `context.a = {}` as a plain data property, and the second then overwrites it with the observable, so `context.a.b` reads undefined.
- Circuits.Circuit.constructor: does not state what the face holds after the setups' writes. The writes are described per call by `ApplyEffects`.
- Face.SetThenRead: proved only for heaps in which every stored object is newer than the object holding it (`Ranked`), which rules out a path that comes back to an object it has passed. The circuit does not keep this up: storing an older object, such as an observable, in an intermediate object created later breaks it, and the lemma then says nothing.
- Face.SetOverwrites: proved only for `Ranked` heaps, as for `Face.SetThenRead`.
- Face.WalkAfterLeafWrite: proved only for `Ranked` heaps, as for `Face.SetThenRead`.
- Face.WatchKeepsValue: proved only for `Ranked` heaps, as for `Face.SetThenRead`.
- Circuits.ExposePublishesFirst: proved only for `Ranked` heaps, as for `Face.SetThenRead`.
- Face.Watch: its own contract states only growth. What it does to listeners and values is stated by `WatchWellFormed`, `WatchThenSet`, `WatchedAfterWatch` and `WatchKeepsValue`.

The tests in the repository use the newer version's API, while the older `src/` files are what its test configuration loads. The model follows the code of each version.
