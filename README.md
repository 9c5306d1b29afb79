# trkl reactive engine in Dafny

This project models the reactive engine of trkl, a tiny JavaScript library (`src/index.ts`) whose main pieces are:

- **signals** (`trkl(initValue)`): a value and an insertion-ordered set of subscribers;
- **a global tracking slot** (`computeFunc`): the computation currently running;
- **computed signals** (`trkl.computed(fn)`): a signal kept equal to the result of `fn`. A computed signal is re-run, synchronously, whenever a signal it has read on any run is written with a different value.

The model has two layers. Lemmas about the first layer carry over to the second through the methods' postconditions.

- **`Semantics`** (semantics.dfy) describes every operation as a function on a value `World`. A `World` holds:
  - the value and the subscriber sequence of every signal;
  - the computed signals;
  - the tracking slot;
  - the log of calls made to user callbacks.

  Propagation (write, notify, re-run, write again) is a group of mutually recursive functions. They carry a `fuel` parameter that stands for the remaining call stack.
- **`Trkl.Engine`** (engine.dfy) is the same engine as the source runs it: one object whose fields are updated in place.
  - The closure variables `val` and `subscribers` are the entries of the fields `values` and `subs`, and `computeFunc` is `slot`.
  - The notification loop `for (const sub of subscribers) sub(val, oldValue)` is a `while` loop over the live subscriber sequence.
  - Every method except `Subscribe` and `Unsubscribe` ensures that its outcome and the new state are exactly what the `Semantics` function of the same name gives for the old state.
  - `Subscribe` has no `Semantics` counterpart, since propagation never calls it: its postcondition states the new state directly, as a set-insert plus the immediate call.
  - `Unsubscribe` is stated through `Subscribers.Delete`: the new subscriber set is `Delete` of the old one, and nothing else changes.

The other modules:

- `Values` (values.dfy): the primitive values and JavaScript truthiness.
- `Subscribers` (subscribers.dfy): the subscriber set as a duplicate-free sequence, with `Set.add` and `Set.delete`.
- `Properties` (properties.dfy): what the engine promises, proved about `Semantics`.

Decisions the model takes from the code:

- **Live iteration.** The notification loop walks the live subscriber sequence, so a subscription added while it runs is visited too (JavaScript `Set` iteration does this). Nothing is deleted during propagation, so no policy for deletion is needed.
- **`val` is re-read.** Each call `sub(val, oldValue)` passes the value the signal holds at that moment. `write` then returns the value held after notification (`return val`). That differs from the written value when a subscriber wrote the signal again.
- **Falsy throws.** `if (err) throw err` re-throws only a truthy failure. A falsy thrown value is swallowed and `undefined` is written into the computed signal.
- **Re-entrancy guard.** The guard compares only the innermost slot. An indirect cycle (A writes what B reads, B writes what A reads) is therefore not reported as circular: A re-runs inside itself. The model follows the code. `Properties.IndirectCycleNotDetected` shows this on a two-node cycle in which each function reads the signal the other one writes, so each routine is subscribed to what it reads, as an earlier run leaves it. A reading in which cycle detection covers indirect cycles, or in which a write returns the value written, is not what the code does.

## Model

| member | source | states |
|---|---|---|
| Subscribers.Insert | src/index.ts:30 | `Set.add`: the subscriber is present afterwards, no other member is added, the old order is a prefix, the set grows by at most one entry and stays duplicate-free |
| Subscribers.Delete | src/index.ts:38 | `Set.delete`: the set shrinks by one exactly when the subscriber was present |
| Subscribers.DeleteIsWithout | src/index.ts:35-41 | on a duplicate-free set, deleting the first match equals the reference filter `Without`: every other subscriber stays, in order |
| Subscribers.DeleteAbsent | src/index.ts:35-41 | unsubscribing an absent subscriber changes nothing |
| Subscribers.DeleteAt | src/index.ts:36-39 | deleting at the first index that holds the subscriber removes that entry only |
| Subscribers.DeleteKeepsNoDups | src/index.ts:38 | after a deletion the set is still duplicate-free and holds exactly the other subscribers |
| Subscribers.InsertThenDelete | src/index.ts:29-41 | subscribing a new callback and then unsubscribing it restores the set |
| Subscribers.InsertIdempotent | src/index.ts:30 | subscribing twice leaves one entry |
| Subscribers.ComputeEntriesBounded | src/index.ts:53 | a subscriber set holds at most one entry per computed signal besides its user callbacks, which bounds the notification loop |
| Semantics.Create | src/index.ts:12-17 | a new signal holds the initial value, has no subscribers, and nothing else changes |
| Semantics.Read | src/index.ts:59-70 | returns the current value; changes nothing when the slot is empty; otherwise adds the computation in the slot to this signal's set (at most once) and changes nothing else |
| Semantics.Write | src/index.ts:44-56 | a `===` value changes nothing and returns `undefined`; otherwise a successful write returns the value the signal holds after notification; propagation keeps every subscription and restores the slot |
| Semantics.CallSubscriber | src/index.ts:53 | a user callback is recorded in the log with exactly `(newVal, oldVal)` and nothing else changes |
| Semantics.Notify | src/index.ts:53 | the loop over the live set keeps the world valid, only adds subscriptions, only appends to the log and leaves the slot as it found it |
| Semantics.NotifyStopsAtFailure | src/index.ts:53 | the first subscriber that throws ends the loop, and its failure is the write's |
| Semantics.RunComputed | src/index.ts:83-107 | re-entry while the routine sits in the slot fails with "Circular computation detected" before touching anything; any run restores the slot, never drops a subscription, and returns `undefined` on success |
| Semantics.Eval | src/index.ts:99 | running the user function keeps the world valid, only adds subscriptions and leaves the slot as it found it |
| Semantics.Computed | src/index.ts:78-82 | `trkl.computed(fn)` adds exactly one signal and one computed signal, which owns that new signal and holds `fn`; the world stays valid, the slot is restored and calls are only appended to the log |
| Semantics.Invoke | src/index.ts:21-26 | with no argument the call reads: it returns the current value and changes no value and no log entry; with or without one, subscriptions are only added and the slot is restored |
| Trkl.Engine.constructor | src/index.ts:10 | the engine starts with no signal and an empty tracking slot |
| Trkl.Engine.Create | src/index.ts:12-17 | creating a signal in place gives the state `Semantics.Create` describes, and returns the new signal's handle |
| Trkl.Engine.Subscribe | src/index.ts:29-32 | set-insert of the callback; with `immediate` the callback is called exactly once, right away, with only the current value; nothing else changes |
| Trkl.Engine.Unsubscribe | src/index.ts:35-41 | the loop finds the first matching entry, deletes it and stops; the new state is `Delete` of the old set, and nothing else changes |
| Trkl.Engine.Read | src/index.ts:59-70 | the in-place read returns and leaves what `Semantics.Read` describes |
| Trkl.Engine.Write | src/index.ts:44-56 | the in-place write returns and leaves what `Semantics.Write` describes |
| Trkl.Engine.Notify | src/index.ts:53 | the `while` loop over the live subscriber sequence gives what `Semantics.Notify` describes |
| Trkl.Engine.CallSubscriber | src/index.ts:53 | calling one subscriber in place gives what `Semantics.CallSubscriber` describes |
| Trkl.Engine.RunComputed | src/index.ts:83-107 | saving, setting and restoring the slot around `fn()` in place gives what `Semantics.RunComputed` describes |
| Trkl.Engine.Eval | src/index.ts:99 | the user function run in place gives what `Semantics.Eval` describes |
| Trkl.Engine.Computed | src/index.ts:78-82 | the in-place `trkl.computed` gives what `Semantics.Computed` describes, and returns the new signal's handle |
| Trkl.Engine.Invoke | src/index.ts:21-26 | calling a signal handle in place gives what `Semantics.Invoke` describes |
| Properties.NotifyExternalPrefix | src/index.ts:53 | a run of user callbacks in the live set is called once each, in order, with `(val, oldValue)`; the loop then goes on after them with nothing else changed |
| Properties.NotifyUserCallbacks | src/index.ts:53 | when every subscriber is a user callback, the loop calls each one once, in insertion order, with `(val, oldValue)`, and changes nothing else |
| Properties.WriteNotifiesUserCallbacks | src/index.ts:48-55 | writing a different value stores it before any callback runs, calls every subscriber once, in order, with `(new, old)`, and returns the new value |
| Properties.WriteUndefinedThenRead | src/index.ts:21-26 | for a signal whose subscribers are all user callbacks, `s(undefined)` is a write, not a read: a following `s()` returns `undefined` |
| Properties.WriteUndefinedThenReadDependent | src/index.ts:21-26 | for a signal a read-only computed signal depends on, `s(undefined)` is a write as well: whether the re-run succeeds or throws, a following `s()` returns `undefined` |
| Properties.SubscribedTwice | src/index.ts:64-66 | reading the same signals again inside one computation subscribes it only once |
| Properties.EvalWriteFree | src/index.ts:59-70 | a user function that only reads returns the reference result `Pure` and subscribes the computation in the slot to exactly the signals it read on this run |
| Properties.RunReadOnly | src/index.ts:93-106 | a run subscribes the routine to what `fn` read and restores the slot; it then either re-throws a truthy failure without writing, or writes the result through the ordinary write path |
| Properties.RunFailureKeepsValue | src/index.ts:96-105 | when `fn` fails with a truthy value, the failure reaches the caller, no value changes and no callback is called |
| Properties.RunSettles | src/index.ts:93-106 | a successful run stores the result and calls the computed signal's callbacks once each, unless the result is `===` the previous value; this also holds with another computation in the slot, since only the innermost entry is compared |
| Properties.FalsyThrowWritesUndefined | src/index.ts:105-106 | for a function that does nothing but throw a falsy value, on a computed signal whose callbacks are all user callbacks: the throw is swallowed, the run succeeds and the signal holds `undefined` |
| Properties.RunKeepsUnread | src/index.ts:64-66 | only a read subscribes anything: a signal that no function reads keeps an empty subscriber set through any run, whatever the run writes and re-runs |
| Properties.ComputedHoldsFirstResult | src/index.ts:78-82 | construction evaluates `fn` once, in the new routine's slot; unless that evaluation throws a truthy value, which then reaches the caller, the new signal holds its result at once (or `undefined` after a falsy throw), whatever `fn` writes along the way |
| Properties.ComputedReadOnlyFirstResult | src/index.ts:78-82 | for a function that only reads, construction calls no callback and changes no other signal: the new signal holds `fn`'s result (or `undefined` after a falsy throw), or stays `undefined` when a truthy failure reaches the caller |
| Properties.DependentRecomputes | src/index.ts:53-106 | writing a signal a computed signal is subscribed to re-runs it before the write returns: it then holds `fn` over the new values and has notified its callbacks, or on failure keeps its value and the failure reaches the writer |
| Properties.SelfTriggerIsCircular | src/index.ts:85-87 | a function `a(e)` that writes a signal `a` its own routine is subscribed to re-enters itself: the user callbacks ahead of the routine in `a`'s set are called with `(v, previous)`, then the run fails with "Circular computation detected"; the write and the read subscriptions stay and the slot is restored |
| Properties.IndirectCycleNotDetected | src/index.ts:85-87 | only the innermost slot is compared: in a two-node cycle where each function reads the signal the other writes, running the first node re-enters it through the second while the second sits in the slot; the run succeeds, with every signal holding what was written, instead of failing as circular |
| Properties.RunWritesResult | src/index.ts:93-106 | a run of a read-only function that is already subscribed to everything it reads, and does not throw a truthy value, is exactly the write of its result into its own signal |
| Properties.ChainWrite | src/index.ts:44-106 | writing a signal whose one subscriber is a read-only computed signal already subscribed to what it reads re-runs it: the write returns the value, the computed signal holds its result, its callbacks are called once each if the result changed, and no subscription changes |
| Properties.Chain | src/index.ts:44-106 | computed signals chain: writing `s` re-runs computed `c` that depends on it, and `c`'s write re-runs computed `b` that depends on `c`, all before the write returns; the write returns the value, `c` and `b` hold their functions' results over the new values, and `b`'s callbacks are called once each if its result changed |
| Properties.WriteKeepsSubscriptions | src/index.ts:83-107 | re-runs triggered by a write never remove or reorder an existing subscription |

## Left out

- `trkl.from` (src/index.ts:112-117) hands a fresh signal to an arbitrary executor and has no logic of its own. It is not modelled.
- rollup.config.js and get-size.js are a bundler configuration and a script that gzips a file and prints its size. Neither is part of this model.
- User callbacks are recorded in a log rather than run. They cannot read, write, throw or unsubscribe, so deleting from a `Set` during iteration never happens in the model.
- User functions are a small expression language: literals, reads, `+`, conditionals, sequencing, writes and `throw`. Arbitrary JavaScript closures are not modelled.
- Values are the JavaScript primitives, with integers for numbers. Floating point, `NaN !== NaN` and `+0 === -0` are not modelled.
- `+` adds integers only; any other operand fails with `NotANumber`. JavaScript's string concatenation and coercions are not modelled.
- Engine errors and `fuel` stand in for JavaScript exceptions and the call stack:
  - an unknown signal handle gives `NoSuchSignal`, standing for a `ReferenceError`;
  - exhausted `fuel` gives `StackOverflow`, standing for a `RangeError`;
  - the fuel bound leaves unmodelled any behaviour that depends on the exact stack size.
- A computed signal whose function names its own handle during construction would throw a `ReferenceError` in JavaScript (temporal dead zone). In the model it reads `undefined`. `ComputedHoldsFirstResult` and `ComputedReadOnlyFirstResult` exclude this case.
- Trkl.Engine.Subscribe: `immediate` with a computed routine as the subscriber is not modelled, since user code can only subscribe its own callbacks.
- Properties.WriteNotifiesUserCallbacks: stated for signals whose subscribers are all user callbacks. A computed subscriber re-runs instead; `DependentRecomputes` covers a single one.
- Properties.EvalWriteFree: stated for user functions that write no signal. A function that writes propagates during its own run.
- Properties.RunFailureKeepsValue: stated for user functions that write no signal. A function that writes before it throws keeps the writes it made.
- Properties.RunSettles: stated for write-free functions whose own signal has only user callbacks and is not read by the function.
- Properties.DependentRecomputes: stated for one computed subscriber whose function writes no signal, with the computed signal's own callbacks all user callbacks. A computed subscriber of the computed signal would re-run in turn, so its outcome would depend on a second function; `Chain` covers two levels.
- Properties.WriteUndefinedThenRead: stated for signals whose subscribers are all user callbacks. `WriteUndefinedThenReadDependent` covers a single read-only computed subscriber. Several computed subscribers, or ones that write, may write the signal again during notification.
- Properties.ComputedHoldsFirstResult: stated when no computed signal's function, the new one included, reads the new signal, since its handle does not exist while `fn` first runs. It states the new signal's value and the outcome only; `ComputedReadOnlyFirstResult` also states that nothing else changes for functions that only read.
- Properties.ComputedReadOnlyFirstResult: stated for user functions that write no signal.
- Properties.SelfTriggerIsCircular: stated for a function `a(e)` whose argument `e` only reads, with only user callbacks ahead of the routine in `a`'s set. A computed subscriber ahead of it would run first.
- Properties.IndirectCycleNotDetected: shown on one two-node cycle of functions `rd(); t(v)` over four signals, not for every cycle.
- Properties.FalsyThrowWritesUndefined: stated for a function that only throws, with the computed signal's callbacks all user callbacks. `RunSettles` covers every read-only function whose failure is falsy: its result `undefined` is stored the same way.
- Properties.ChainWrite: stated for a subscriber whose function only reads, reads only the written signal and throws no truthy value, with its own callbacks all user callbacks; `DependentRecomputes` states the general single-subscriber case.
- Properties.Chain: stated for two levels, each with one computed subscriber whose function only reads, reads only the signal below it and throws no truthy value, with the tracking slot empty and `b`'s callbacks all user callbacks. Longer chains, several subscribers per signal and throwing functions are not stated.
