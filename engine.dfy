/**
 * The engine as the source runs it: one object whose fields are updated in
 * place. The closure variables `val` and `subscribers` of every signal made
 * by `trkl` are the entries of `values` and `subs`; the global `computeFunc`
 * is `slot`. Every method except Subscribe and Unsubscribe is proved to do
 * what the function of the same name in module Semantics describes;
 * Subscribe states its new state directly, and Unsubscribe through
 * `Subscribers.Delete`.
 */
module Trkl {
  import opened Values
  import opened Subscribers
  import opened Semantics

  class Engine {
    var values: seq<Value>
    var subs: seq<seq<Subscriber>>
    var nodes: seq<Node>
    var slot: Option<nat>
    var log: seq<Call>

    /** The engine's state as a value. */
    function Snapshot(): World
      reads this
    {
      World(values, subs, nodes, slot, log)
    }

    ghost predicate Valid()
      reads this
    {
      Semantics.Valid(Snapshot())
    }

    /** No signal yet, and `computeFunc` starts out undefined. */
    constructor ()
      ensures Valid() && Snapshot() == World([], [], [], None, [])
    {
      values, subs, nodes, slot, log := [], [], [], None, [];
    }

    /** `trkl(initValue)`; the handle of the new signal is its number `s`. */
    method Create(init: Value) returns (s: nat)
      requires Valid()
      modifies this
      ensures Valid() && Snapshot() == Semantics.Create(old(Snapshot()), init)
      ensures s == |old(values)| && s < |values|
    {
      s := |values|;
      values := values + [init];
      subs := subs + [[]];
    }

    /** `signal.subscribe(callback, immediate)` for the user callback `id`. */
    method Subscribe(s: nat, id: nat, immediate: bool)
      requires Valid() && s < |values|
      modifies this
      ensures Valid()
      ensures subs == old(subs)[s := Insert(old(subs[s]), External(id))]
      ensures log == old(log) + (if immediate then [Call(id, values[s], None)] else [])
      ensures values == old(values) && nodes == old(nodes) && slot == old(slot)
    {
      subs := subs[s := Insert(subs[s], External(id))];
      if immediate {
        log := log + [Call(id, values[s], None)];
      }
    }

    /** `signal.unsubscribe(callback)`: deletes the first entry equal to `sub` and stops. */
    method Unsubscribe(s: nat, sub: Subscriber)
      requires Valid() && s < |values|
      modifies this
      ensures Valid()
      ensures Snapshot() == old(Snapshot()).(subs := old(subs)[s := Delete(old(subs[s]), sub)])
    {
      var i := 0;
      while i < |subs[s]|
        invariant i <= |subs[s]|
        invariant Snapshot() == old(Snapshot())
        invariant sub !in subs[s][..i]
      {
        if subs[s][i] == sub {
          DeleteAt(subs[s], sub, i);
          DeleteKeepsNoDups(subs[s], sub);
          subs := subs[s := subs[s][..i] + subs[s][i + 1..]];
          return;
        }
        assert subs[s][..i + 1] == subs[s][..i] + [subs[s][i]];
        i := i + 1;
      }
      assert subs[s][..i] == subs[s];
      DeleteAbsent(subs[s], sub);
    }

    /** `read()`, subscribing the computation in the tracking slot, if any. */
    method Read(s: nat) returns (v: Value)
      requires Valid() && s < |values|
      modifies this
      ensures Step(Snapshot(), Ok(v)) == Semantics.Read(old(Snapshot()), s)
    {
      if slot.Some? {
        subs := subs[s := Insert(subs[s], Compute(slot.value))];
      }
      v := values[s];
    }

    /** `write(newValue)`. */
    method Write(s: nat, v: Value, fuel: nat) returns (out: Outcome)
      requires Valid() && s < |values|
      modifies this
      ensures Step(Snapshot(), out) == Semantics.Write(old(Snapshot()), s, v, fuel)
      decreases fuel, 1
    {
      if v == values[s] {
        return Ok(Undef);
      }
      var oldValue := values[s];
      values := values[s := v];
      out := Notify(s, oldValue, fuel);
      if out.Ok? {
        out := Ok(values[s]);
      }
    }

    /**
     * `for (const sub of subscribers) sub(val, oldValue)`: an index over the
     * live subscriber sequence, so entries added during the loop are visited.
     */
    method Notify(s: nat, oldValue: Value, fuel: nat) returns (out: Outcome)
      requires Valid() && s < |values|
      modifies this
      ensures Step(Snapshot(), out) == Semantics.Notify(old(Snapshot()), s, 0, oldValue, fuel)
      decreases fuel, 0, Bound(Snapshot(), s), 1
    {
      ghost var start := Snapshot();
      var i := 0;
      while i < |subs[s]|
        invariant Semantics.Valid(Snapshot()) && |values| == |start.values|
        invariant i <= |subs[s]| && Bound(Snapshot(), s) == Bound(start, s)
        invariant Semantics.Notify(Snapshot(), s, i, oldValue, fuel) == Semantics.Notify(start, s, 0, oldValue, fuel)
        decreases Bound(start, s) - i
      {
        ghost var before := Snapshot();
        var r := CallSubscriber(subs[s][i], values[s], Some(oldValue), fuel);
        if r.Err? {
          return r;
        }
        NotifyStep(before, s, i, oldValue, fuel);
        SubsBounded(Snapshot(), s);
        i := i + 1;
      }
      out := Ok(Undef);
    }

    /** Calls one subscriber: a user callback is recorded, a computed signal's routine re-run. */
    method CallSubscriber(sub: Subscriber, newVal: Value, oldVal: Option<Value>, fuel: nat) returns (out: Outcome)
      requires Valid() && (sub.Compute? ==> sub.node < |nodes|)
      modifies this
      ensures Step(Snapshot(), out) == Semantics.CallSubscriber(old(Snapshot()), sub, newVal, oldVal, fuel)
      decreases fuel, 0, 0, 0
    {
      match sub
      case External(id) =>
        log := log + [Call(id, newVal, oldVal)];
        out := Ok(Undef);
      case Compute(n) =>
        if fuel == 0 {
          return Err(StackOverflow);
        }
        out := RunComputed(n, fuel - 1);
    }

    /** `runComputed()` of computed signal `n`, with the slot saved and restored around the user function. */
    method RunComputed(n: nat, fuel: nat) returns (out: Outcome)
      requires Valid() && n < |nodes|
      modifies this
      ensures Step(Snapshot(), out) == Semantics.RunComputed(old(Snapshot()), n, fuel)
      decreases fuel, 3
    {
      if slot == Some(n) {
        return Err(Circular);
      }
      var prev := slot;
      slot := Some(n);
      var result := Eval(nodes[n].fn, fuel);
      slot := prev;
      if result.Err? && Raises(result.failure) {
        return result;
      }
      var w := Write(nodes[n].signal, Written(result), fuel);
      out := if w.Err? then w else Ok(Undef);
    }

    /** Runs a user function in place. */
    method Eval(e: Expr, fuel: nat) returns (out: Outcome)
      requires Valid()
      modifies this
      ensures Step(Snapshot(), out) == Semantics.Eval(old(Snapshot()), e, fuel)
      decreases fuel, 2, e
    {
      match e
      case Lit(v) =>
        out := Ok(v);
      case Get(s) =>
        if s < |values| {
          var v := Read(s);
          out := Ok(v);
        } else {
          out := Err(NoSuchSignal);
        }
      case Plus(a, b) =>
        var x := Eval(a, fuel);
        if x.Err? {
          return x;
        }
        var y := Eval(b, fuel);
        if y.Err? {
          return y;
        }
        out := Sum(x.value, y.value);
      case Cond(c, t, f) =>
        var x := Eval(c, fuel);
        if x.Err? {
          return x;
        }
        if Truthy(x.value) {
          out := Eval(t, fuel);
        } else {
          out := Eval(f, fuel);
        }
      case Then(a, b) =>
        var x := Eval(a, fuel);
        if x.Err? {
          return x;
        }
        out := Eval(b, fuel);
      case Assign(s, a) =>
        if s >= |values| {
          return Err(NoSuchSignal);
        }
        var x := Eval(a, fuel);
        if x.Err? {
          return x;
        }
        out := Write(s, x.value, fuel);
      case Raise(v) =>
        out := Err(Thrown(v));
    }

    /** `trkl.computed(fn)`: returns the handle `s` of the computed signal and the outcome of its first run. */
    method Computed(fn: Expr, fuel: nat) returns (s: nat, out: Outcome)
      requires Valid()
      modifies this
      ensures Step(Snapshot(), out) == Semantics.Computed(old(Snapshot()), fn, fuel)
      ensures s == |old(values)| && s < |values|
    {
      s := |values|;
      values := values + [Undef];
      subs := subs + [[]];
      nodes := nodes + [Node(s, fn)];
      out := RunComputed(|nodes| - 1, fuel);
    }

    /** `signal(...)`: no argument reads, one argument (even `undefined`) writes. */
    method Invoke(s: nat, arg: Option<Value>, fuel: nat) returns (out: Outcome)
      requires Valid() && s < |values|
      modifies this
      ensures Step(Snapshot(), out) == Semantics.Invoke(old(Snapshot()), s, arg, fuel)
    {
      match arg
      case None =>
        var v := Read(s);
        out := Ok(v);
      case Some(v) =>
        out := Write(s, v, fuel);
    }
  }
}
