/**
 * What the engine promises, proved about the functions of module Semantics
 * (and so, through the methods' postconditions, about class Trkl.Engine).
 */
module Properties {
  import opened Values
  import opened Subscribers
  import opened Semantics

  // ---------------------------------------------------------------------
  // Writing a signal whose subscribers are all user callbacks
  // ---------------------------------------------------------------------

  ghost predicate AllExternal(xs: seq<Subscriber>)
  {
    forall x :: x in xs ==> x.External?
  }

  /** The calls `(newVal, oldVal)` made to the user callbacks `xs`, one each, in order. */
  function Calls(xs: seq<Subscriber>, newVal: Value, oldVal: Value): (r: seq<Call>)
    requires AllExternal(xs)
    ensures |r| == |xs|
    ensures forall k :: 0 <= k < |xs| ==> r[k] == Call(xs[k].id, newVal, Some(oldVal))
  {
    if xs == [] then [] else [Call(xs[0].id, newVal, Some(oldVal))] + Calls(xs[1..], newVal, oldVal)
  }

  /** Calling the user callback at position `i` only appends to the log. */
  lemma NotifyUserCallbackStep(w: World, s: nat, i: nat, oldValue: Value, fuel: nat)
    requires Valid(w) && s < |w.values| && i < |w.subs[s]| && w.subs[s][i].External?
    ensures Notify(w, s, i, oldValue, fuel)
         == Notify(w.(log := w.log + [Call(w.subs[s][i].id, w.values[s], Some(oldValue))]), s, i + 1, oldValue, fuel)
  {
    var sub := w.subs[s][i];
    var w1 := w.(log := w.log + [Call(sub.id, w.values[s], Some(oldValue))]);
    assert CallSubscriber(w, sub, w.values[s], Some(oldValue), fuel) == Step(w1, Ok(Undef));
    NotifyStep(w, s, i, oldValue, fuel);
  }

  lemma CallsStep(xs: seq<Subscriber>, i: nat, j: nat, newVal: Value, oldVal: Value)
    requires i < j <= |xs| && AllExternal(xs[i..j])
    ensures AllExternal(xs[i + 1..j])
    ensures Calls(xs[i..j], newVal, oldVal) == [Call(xs[i].id, newVal, Some(oldVal))] + Calls(xs[i + 1..j], newVal, oldVal)
  {
    assert xs[i..j][1..] == xs[i + 1..j];
    assert xs[i..j][0] == xs[i];
  }

  /** Logging the call at position `i`, then those up to `j`, logs the calls from `i` up to `j`. */
  lemma CallsLogStep(w: World, s: nat, i: nat, j: nat, oldValue: Value)
    requires s < |w.values| && s < |w.subs| && i < j <= |w.subs[s]| && AllExternal(w.subs[s][i..j])
    ensures AllExternal(w.subs[s][i + 1..j])
    ensures var w1 := w.(log := w.log + [Call(w.subs[s][i].id, w.values[s], Some(oldValue))]);
      w1.(log := w1.log + Calls(w1.subs[s][i + 1..j], w1.values[s], oldValue))
      == w.(log := w.log + Calls(w.subs[s][i..j], w.values[s], oldValue))
  {
    var c := Call(w.subs[s][i].id, w.values[s], Some(oldValue));
    CallsStep(w.subs[s], i, j, w.values[s], oldValue);
    var tail := Calls(w.subs[s][i + 1..j], w.values[s], oldValue);
    assert (w.log + [c]) + tail == w.log + ([c] + tail);
  }

  /**
   * The user callbacks at positions `i` up to `j` of the live set are called
   * once each, in order, with `(val, oldValue)`, and the loop goes on at `j`.
   */
  lemma {:induction false} NotifyExternalPrefix(w: World, s: nat, i: nat, j: nat, oldValue: Value, fuel: nat)
    requires Valid(w) && s < |w.values| && i <= j <= |w.subs[s]| && AllExternal(w.subs[s][i..j])
    ensures Notify(w, s, i, oldValue, fuel)
         == Notify(w.(log := w.log + Calls(w.subs[s][i..j], w.values[s], oldValue)), s, j, oldValue, fuel)
    decreases j - i
  {
    if i == j {
      assert w.subs[s][i..j] == [];
      assert w.(log := w.log + []) == w;
    } else {
      assert w.subs[s][i] == w.subs[s][i..j][0];
      var w1 := w.(log := w.log + [Call(w.subs[s][i].id, w.values[s], Some(oldValue))]);
      NotifyUserCallbackStep(w, s, i, oldValue, fuel);
      CallsLogStep(w, s, i, j, oldValue);
      NotifyExternalPrefix(w1, s, i + 1, j, oldValue, fuel);
    }
  }

  /** When every subscriber is a user callback, the loop calls each once, in order, and changes nothing else. */
  lemma NotifyUserCallbacks(w: World, s: nat, i: nat, oldValue: Value, fuel: nat)
    requires Valid(w) && s < |w.values| && i <= |w.subs[s]| && AllExternal(w.subs[s])
    ensures Notify(w, s, i, oldValue, fuel)
         == Step(w.(log := w.log + Calls(w.subs[s][i..], w.values[s], oldValue)), Ok(Undef))
  {
    var xs := w.subs[s];
    assert xs[i..|xs|] == xs[i..];
    assert forall x :: x in xs[i..] ==> x in xs;
    NotifyExternalPrefix(w, s, i, |xs|, oldValue, fuel);
    NotifyDone(w.(log := w.log + Calls(xs[i..], w.values[s], oldValue)), s, oldValue, fuel);
  }

  /**
   * Writing a new value stores it before any callback runs, calls every
   * subscriber exactly once, in insertion order, with `(newValue, oldValue)`,
   * and returns the new value.
   */
  lemma WriteNotifiesUserCallbacks(w: World, s: nat, v: Value, fuel: nat)
    requires Valid(w) && s < |w.values| && AllExternal(w.subs[s]) && v != w.values[s]
    ensures Write(w, s, v, fuel)
         == Step(w.(values := w.values[s := v], log := w.log + Calls(w.subs[s], v, w.values[s])), Ok(v))
  {
    var w1 := w.(values := w.values[s := v]);
    NotifyUserCallbacks(w1, s, 0, w.values[s], fuel);
    assert w1.subs[s][0..] == w.subs[s];
  }

  /** `s(undefined)` writes: a following `s()` returns `undefined`. */
  lemma WriteUndefinedThenRead(w: World, s: nat, fuel: nat)
    requires Valid(w) && s < |w.values| && AllExternal(w.subs[s])
    ensures Invoke(Invoke(w, s, Some(Undef), fuel).w, s, None, fuel).out == Ok(Undef)
  {
    if w.values[s] != Undef {
      WriteNotifiesUserCallbacks(w, s, Undef, fuel);
    }
  }

  // ---------------------------------------------------------------------
  // User functions that only read: a reference semantics
  // ---------------------------------------------------------------------

  /** The user function writes no signal. */
  predicate WriteFree(e: Expr)
  {
    match e
    case Lit(_) => true
    case Get(_) => true
    case Plus(a, b) => WriteFree(a) && WriteFree(b)
    case Cond(c, t, f) => WriteFree(c) && WriteFree(t) && WriteFree(f)
    case Then(a, b) => WriteFree(a) && WriteFree(b)
    case Assign(_, _) => false
    case Raise(_) => true
  }

  /** The outcome of a user function that only reads, given the values of all signals. */
  function Pure(e: Expr, vals: seq<Value>): Outcome
    requires WriteFree(e)
  {
    match e
    case Lit(v) => Ok(v)
    case Get(s) => if s < |vals| then Ok(vals[s]) else Err(NoSuchSignal)
    case Plus(a, b) =>
      var x := Pure(a, vals);
      if x.Err? then x else
      var y := Pure(b, vals);
      if y.Err? then y else Sum(x.value, y.value)
    case Cond(c, t, f) =>
      var x := Pure(c, vals);
      if x.Err? then x else if Truthy(x.value) then Pure(t, vals) else Pure(f, vals)
    case Then(a, b) =>
      var x := Pure(a, vals);
      if x.Err? then x else Pure(b, vals)
    case Raise(v) => Err(Thrown(v))
  }

  /** The signals such a function actually reads: only the branch taken, and nothing after a failure. */
  function Touched(e: Expr, vals: seq<Value>): set<nat>
    requires WriteFree(e)
  {
    match e
    case Lit(_) => {}
    case Get(s) => if s < |vals| then {s} else {}
    case Plus(a, b) => Touched(a, vals) + (if Pure(a, vals).Ok? then Touched(b, vals) else {})
    case Cond(c, t, f) =>
      Touched(c, vals) +
      (if Pure(c, vals).Err? then {} else if Truthy(Pure(c, vals).value) then Touched(t, vals) else Touched(f, vals))
    case Then(a, b) => Touched(a, vals) + (if Pure(a, vals).Ok? then Touched(b, vals) else {})
    case Raise(_) => {}
  }

  /** `subs` after `c` has subscribed (once) to every signal in `t`. */
  function SubscribeAll(subs: seq<seq<Subscriber>>, t: set<nat>, c: Subscriber): (r: seq<seq<Subscriber>>)
    ensures |r| == |subs|
    ensures forall s :: 0 <= s < |subs| ==> r[s] == if s in t then Insert(subs[s], c) else subs[s]
  {
    seq(|subs|, s requires 0 <= s < |subs| => if s in t then Insert(subs[s], c) else subs[s])
  }

  /** The subscriber sets after the computation in the slot has read the signals `t`. */
  function Subscribed(w: World, t: set<nat>): seq<seq<Subscriber>>
  {
    if w.slot.None? then w.subs else SubscribeAll(w.subs, t, Compute(w.slot.value))
  }

  lemma SubscribedTwice(w: World, t1: set<nat>, t2: set<nat>)
    ensures Subscribed(w.(subs := Subscribed(w, t1)), t2) == Subscribed(w, t1 + t2)
  {
    if w.slot.Some? {
      var c := Compute(w.slot.value);
      forall s | 0 <= s < |w.subs|
        ensures SubscribeAll(SubscribeAll(w.subs, t1, c), t2, c)[s] == SubscribeAll(w.subs, t1 + t2, c)[s]
      {
        InsertIdempotent(w.subs[s], c);
      }
    }
  }

  /**
   * Running a user function that only reads changes nothing but the
   * subscriber sets: its outcome is the reference outcome `Pure`, and the
   * computation in the tracking slot is subscribed, once, to exactly the
   * signals the function read on this run.
   */
  lemma {:induction false} EvalWriteFree(w: World, e: Expr, fuel: nat)
    requires Valid(w) && WriteFree(e)
    ensures Eval(w, e, fuel) == Step(w.(subs := Subscribed(w, Touched(e, w.values))), Pure(e, w.values))
    decreases e, 1
  {
    match e
    case Plus(a, b) =>
      EvalPlusWriteFree(w, a, b, fuel);
    case Cond(c, t, f) =>
      EvalCondWriteFree(w, c, t, f, fuel);
    case Then(a, b) =>
      EvalThenWriteFree(w, a, b, fuel);
    case _ =>
      EvalLeafWriteFree(w, e, fuel);
  }

  /** Constants, reads and throws: only a read subscribes anything. */
  lemma EvalLeafWriteFree(w: World, e: Expr, fuel: nat)
    requires Valid(w) && (e.Lit? || e.Get? || e.Raise?)
    ensures Eval(w, e, fuel) == Step(w.(subs := Subscribed(w, Touched(e, w.values))), Pure(e, w.values))
  {
    if !e.Get? || e.sig >= |w.values| {
      assert Touched(e, w.values) == {};
      assert Subscribed(w, {}) == w.subs;
    }
  }

  lemma {:induction false} EvalPlusWriteFree(w: World, a: Expr, b: Expr, fuel: nat)
    requires Valid(w) && WriteFree(a) && WriteFree(b)
    ensures Eval(w, Plus(a, b), fuel)
         == Step(w.(subs := Subscribed(w, Touched(Plus(a, b), w.values))), Pure(Plus(a, b), w.values))
    decreases Plus(a, b), 0
  {
    EvalWriteFree(w, a, fuel);
    var ra := Eval(w, a, fuel);
    if ra.out.Ok? {
      EvalWriteFree(ra.w, b, fuel);
      var rb := Eval(ra.w, b, fuel);
      assert Eval(w, Plus(a, b), fuel) == if rb.out.Err? then rb else Step(rb.w, Sum(ra.out.value, rb.out.value));
      SubscribedTwice(w, Touched(a, w.values), Touched(b, w.values));
    } else {
      assert Eval(w, Plus(a, b), fuel) == ra;
      assert Touched(Plus(a, b), w.values) == Touched(a, w.values);
    }
  }

  lemma {:induction false} EvalThenWriteFree(w: World, a: Expr, b: Expr, fuel: nat)
    requires Valid(w) && WriteFree(a) && WriteFree(b)
    ensures Eval(w, Then(a, b), fuel)
         == Step(w.(subs := Subscribed(w, Touched(Then(a, b), w.values))), Pure(Then(a, b), w.values))
    decreases Then(a, b), 0
  {
    EvalWriteFree(w, a, fuel);
    var ra := Eval(w, a, fuel);
    if ra.out.Ok? {
      EvalWriteFree(ra.w, b, fuel);
      assert Eval(w, Then(a, b), fuel) == Eval(ra.w, b, fuel);
      SubscribedTwice(w, Touched(a, w.values), Touched(b, w.values));
    } else {
      assert Eval(w, Then(a, b), fuel) == ra;
      assert Touched(Then(a, b), w.values) == Touched(a, w.values);
    }
  }

  lemma {:induction false} EvalCondWriteFree(w: World, c: Expr, t: Expr, f: Expr, fuel: nat)
    requires Valid(w) && WriteFree(c) && WriteFree(t) && WriteFree(f)
    ensures Eval(w, Cond(c, t, f), fuel)
         == Step(w.(subs := Subscribed(w, Touched(Cond(c, t, f), w.values))), Pure(Cond(c, t, f), w.values))
    decreases Cond(c, t, f), 0
  {
    EvalWriteFree(w, c, fuel);
    var rc := Eval(w, c, fuel);
    if rc.out.Ok? {
      var branch := if Truthy(rc.out.value) then t else f;
      EvalWriteFree(rc.w, branch, fuel);
      assert Eval(w, Cond(c, t, f), fuel) == Eval(rc.w, branch, fuel);
      SubscribedTwice(w, Touched(c, w.values), Touched(branch, w.values));
    } else {
      assert Eval(w, Cond(c, t, f), fuel) == rc;
      assert Touched(Cond(c, t, f), w.values) == Touched(c, w.values);
    }
  }

  // ---------------------------------------------------------------------
  // Runs of a computed signal whose user function only reads
  // ---------------------------------------------------------------------

  /**
   * A run subscribes the routine to every signal the function read, restores
   * the slot, then either re-throws a truthy failure without writing, or
   * sends the result (`undefined` after a falsy throw) through the ordinary
   * write path of its own signal.
   */
  lemma RunReadOnly(w: World, n: nat, fuel: nat)
    requires Valid(w) && n < |w.nodes| && w.slot != Some(n) && WriteFree(w.nodes[n].fn)
    ensures var fn := w.nodes[n].fn;
      var w1 := w.(subs := SubscribeAll(w.subs, Touched(fn, w.values), Compute(n)));
      && Valid(w1)
      && RunComputed(w, n, fuel)
         == if Pure(fn, w.values).Err? && Raises(Pure(fn, w.values).failure) then Step(w1, Pure(fn, w.values))
            else
              var r := Write(w1, w.nodes[n].signal, Written(Pure(fn, w.values)), fuel);
              Step(r.w, if r.out.Err? then r.out else Ok(Undef))
  {
    var fn := w.nodes[n].fn;
    var wn := w.(slot := Some(n));
    EvalWriteFree(wn, fn, fuel);
    var e := Eval(wn, fn, fuel);
    var w1 := w.(subs := SubscribeAll(w.subs, Touched(fn, w.values), Compute(n)));
    assert e.w.(slot := w.slot) == w1;
  }

  /**
   * When the user function fails with a truthy value the failure reaches
   * the caller, and no value is written and no callback is called.
   */
  lemma RunFailureKeepsValue(w: World, n: nat, fuel: nat)
    requires Valid(w) && n < |w.nodes| && w.slot != Some(n) && WriteFree(w.nodes[n].fn)
    requires Pure(w.nodes[n].fn, w.values).Err? && Raises(Pure(w.nodes[n].fn, w.values).failure)
    ensures var r := RunComputed(w, n, fuel);
      && r.out == Pure(w.nodes[n].fn, w.values)
      && r.w.values == w.values && r.w.log == w.log && r.w.slot == w.slot
  {
    RunReadOnly(w, n, fuel);
  }

  /**
   * A run whose own signal has only user callbacks (and is not read by its
   * function) settles at once: the result, or `undefined` after a falsy
   * throw, becomes the signal's value, and the callbacks are called once
   * each with `(result, previous)` unless the result is `===` the previous
   * value, in which case nothing is called.
   */
  lemma RunSettles(w: World, n: nat, fuel: nat)
    requires Valid(w) && n < |w.nodes| && w.slot != Some(n) && WriteFree(w.nodes[n].fn)
    requires AllExternal(w.subs[w.nodes[n].signal])
    requires w.nodes[n].signal !in Touched(w.nodes[n].fn, w.values)
    requires var p := Pure(w.nodes[n].fn, w.values); p.Ok? || !Raises(p.failure)
    ensures var r := RunComputed(w, n, fuel);
      var c, x := w.nodes[n].signal, Written(Pure(w.nodes[n].fn, w.values));
      && r.out == Ok(Undef) && r.w.slot == w.slot
      && r.w.subs == SubscribeAll(w.subs, Touched(w.nodes[n].fn, w.values), Compute(n))
      && r.w.values == w.values[c := x]
      && r.w.log == w.log + (if x == w.values[c] then [] else Calls(w.subs[c], x, w.values[c]))
  {
    var fn, c := w.nodes[n].fn, w.nodes[n].signal;
    var x := Written(Pure(fn, w.values));
    var w1 := w.(subs := SubscribeAll(w.subs, Touched(fn, w.values), Compute(n)));
    if x != w.values[c] {
      RunSettlesChanged(w, n, fuel);
    } else {
      RunReadOnly(w, n, fuel);
      assert Write(w1, c, x, fuel) == Step(w1, Ok(Undef));
      assert w.values[c := x] == w.values;
      assert w.log + [] == w.log;
    }
  }

  /** The run of `RunSettles` when the result differs from the signal's value. */
  lemma RunSettlesChanged(w: World, n: nat, fuel: nat)
    requires Valid(w) && n < |w.nodes| && w.slot != Some(n) && WriteFree(w.nodes[n].fn)
    requires AllExternal(w.subs[w.nodes[n].signal])
    requires w.nodes[n].signal !in Touched(w.nodes[n].fn, w.values)
    requires var p := Pure(w.nodes[n].fn, w.values); p.Ok? || !Raises(p.failure)
    requires Written(Pure(w.nodes[n].fn, w.values)) != w.values[w.nodes[n].signal]
    ensures var c, x := w.nodes[n].signal, Written(Pure(w.nodes[n].fn, w.values));
      RunComputed(w, n, fuel)
      == Step(w.(subs := SubscribeAll(w.subs, Touched(w.nodes[n].fn, w.values), Compute(n)),
                 values := w.values[c := x],
                 log := w.log + Calls(w.subs[c], x, w.values[c])),
              Ok(Undef))
  {
    var fn, c := w.nodes[n].fn, w.nodes[n].signal;
    var x := Written(Pure(fn, w.values));
    RunReadOnly(w, n, fuel);
    var w1 := w.(subs := SubscribeAll(w.subs, Touched(fn, w.values), Compute(n)));
    assert w1.subs[c] == w.subs[c];
    WriteNotifiesUserCallbacks(w1, c, x, fuel);
  }

  /** A falsy throw is swallowed: the run succeeds and the signal holds `undefined`. */
  lemma FalsyThrowWritesUndefined(w: World, n: nat, v: Value, fuel: nat)
    requires Valid(w) && n < |w.nodes| && w.slot != Some(n)
    requires w.nodes[n].fn == Raise(v) && !Truthy(v) && AllExternal(w.subs[w.nodes[n].signal])
    ensures var r := RunComputed(w, n, fuel);
      r.out == Ok(Undef) && r.w.values[w.nodes[n].signal] == Undef
  {
    RunSettles(w, n, fuel);
  }

  // ---------------------------------------------------------------------
  // A signal that no function reads keeps an empty subscriber set
  // ---------------------------------------------------------------------

  /** The user function mentions a read of signal `c` (in any branch). */
  predicate Reads(e: Expr, c: nat)
  {
    match e
    case Lit(_) => false
    case Get(s) => s == c
    case Plus(a, b) => Reads(a, c) || Reads(b, c)
    case Cond(x, t, f) => Reads(x, c) || Reads(t, c) || Reads(f, c)
    case Then(a, b) => Reads(a, c) || Reads(b, c)
    case Assign(_, a) => Reads(a, c)
    case Raise(_) => false
  }

  /** Signal `c` has no subscriber, and no computed signal's function reads it. */
  ghost predicate Unread(w: World, c: nat)
  {
    && c < |w.subs| && w.subs[c] == []
    && forall k :: 0 <= k < |w.nodes| ==> !Reads(w.nodes[k].fn, c)
  }

  /**
   * Only a read subscribes anything, so a signal that nothing reads stays
   * unobserved through any propagation, however many computed signals run.
   */
  lemma {:induction false} EvalKeepsUnread(w: World, e: Expr, fuel: nat, c: nat)
    requires Valid(w) && Unread(w, c) && !Reads(e, c)
    ensures Unread(Eval(w, e, fuel).w, c)
    decreases fuel, 2, e
  {
    match e
    case Lit(_) =>
    case Get(_) =>
    case Plus(a, b) =>
      EvalKeepsUnread(w, a, fuel, c);
      var ra := Eval(w, a, fuel);
      if ra.out.Ok? {
        EvalKeepsUnread(ra.w, b, fuel, c);
      }
    case Cond(x, t, f) =>
      EvalKeepsUnread(w, x, fuel, c);
      var rx := Eval(w, x, fuel);
      if rx.out.Ok? {
        EvalKeepsUnread(rx.w, t, fuel, c);
        EvalKeepsUnread(rx.w, f, fuel, c);
      }
    case Then(a, b) =>
      EvalKeepsUnread(w, a, fuel, c);
      var ra := Eval(w, a, fuel);
      if ra.out.Ok? {
        EvalKeepsUnread(ra.w, b, fuel, c);
      }
    case Assign(s, a) =>
      if s < |w.values| {
        EvalKeepsUnread(w, a, fuel, c);
        var ra := Eval(w, a, fuel);
        if ra.out.Ok? {
          WriteKeepsUnread(ra.w, s, ra.out.value, fuel, c);
        }
      }
    case Raise(_) =>
  }

  lemma {:induction false} WriteKeepsUnread(w: World, s: nat, v: Value, fuel: nat, c: nat)
    requires Valid(w) && s < |w.values| && Unread(w, c)
    ensures Unread(Write(w, s, v, fuel).w, c)
    decreases fuel, 1
  {
    if v != w.values[s] {
      NotifyKeepsUnread(w.(values := w.values[s := v]), s, 0, w.values[s], fuel, c);
    }
  }

  lemma {:induction false} NotifyKeepsUnread(w: World, s: nat, i: nat, oldValue: Value, fuel: nat, c: nat)
    requires Valid(w) && s < |w.values| && i <= |w.subs[s]| && Unread(w, c)
    ensures Unread(Notify(w, s, i, oldValue, fuel).w, c)
    decreases fuel, 0, Bound(w, s) - i, 1
  {
    SubsBounded(w, s);
    if i == |w.subs[s]| {
      NotifyDone(w, s, oldValue, fuel);
    } else {
      var sub := w.subs[s][i];
      assert sub in w.subs[s];
      CallKeepsUnread(w, sub, w.values[s], Some(oldValue), fuel, c);
      var r1 := CallSubscriber(w, sub, w.values[s], Some(oldValue), fuel);
      if r1.out.Err? {
        NotifyStopsAtFailure(w, s, i, oldValue, fuel);
      } else {
        NotifyStep(w, s, i, oldValue, fuel);
        SubsBounded(r1.w, s);
        NotifyKeepsUnread(r1.w, s, i + 1, oldValue, fuel, c);
      }
    }
  }

  lemma {:induction false} CallKeepsUnread(w: World, sub: Subscriber, newVal: Value, oldVal: Option<Value>, fuel: nat, c: nat)
    requires Valid(w) && (sub.Compute? ==> sub.node < |w.nodes|) && Unread(w, c)
    ensures Unread(CallSubscriber(w, sub, newVal, oldVal, fuel).w, c)
    decreases fuel, 0, 0, 0
  {
    if sub.Compute? && fuel > 0 {
      RunKeepsUnread(w, sub.node, fuel - 1, c);
    }
  }

  lemma {:induction false} RunKeepsUnread(w: World, n: nat, fuel: nat, c: nat)
    requires Valid(w) && n < |w.nodes| && Unread(w, c)
    ensures Unread(RunComputed(w, n, fuel).w, c)
    decreases fuel, 3
  {
    if w.slot != Some(n) {
      var w1 := w.(slot := Some(n));
      EvalKeepsUnread(w1, w.nodes[n].fn, fuel, c);
      var e := Eval(w1, w.nodes[n].fn, fuel);
      var w2 := e.w.(slot := w.slot);
      if !(e.out.Err? && Raises(e.out.failure)) {
        WriteKeepsUnread(w2, w.nodes[n].signal, Written(e.out), fuel, c);
      }
    }
  }

  // ---------------------------------------------------------------------
  // Construction of a computed signal
  // ---------------------------------------------------------------------

  /**
   * The world in which `trkl.computed(fn)` first evaluates `fn`: the new
   * signal (holding `undefined`) and the computed signal owning it exist,
   * and its routine is in the slot.
   */
  function FirstRunWorld(w: World, fn: Expr): (r: World)
    requires Valid(w)
    ensures Valid(r) && r.slot == Some(|w.nodes|) && r.nodes == w.nodes + [Node(|w.values|, fn)]
    ensures r.values == w.values + [Undef] && r.subs == w.subs + [[]] && r.log == w.log
  {
    w.(values := w.values + [Undef], subs := w.subs + [[]], nodes := w.nodes + [Node(|w.values|, fn)], slot := Some(|w.nodes|))
  }

  /**
   * Construction evaluates the function once: unless that evaluation throws
   * a truthy value, which then reaches the caller, reading the new computed
   * signal yields the evaluation's result (or `undefined` after a falsy
   * throw) straight away. This holds whatever the function writes and
   * whatever other computed signals those writes re-run, as long as no
   * function reads the signal being built; its handle does not exist yet.
   */
  lemma ComputedHoldsFirstResult(w: World, fn: Expr, fuel: nat)
    requires Valid(w) && !Reads(fn, |w.values|)
    requires forall k :: 0 <= k < |w.nodes| ==> !Reads(w.nodes[k].fn, |w.values|)
    ensures var e, r := Eval(FirstRunWorld(w, fn), fn, fuel), Computed(w, fn, fuel);
      && (e.out.Err? && Raises(e.out.failure) ==> r.out == e.out)
      && (e.out.Ok? || !Raises(e.out.failure) ==> r.out == Ok(Undef) && r.w.values[|w.values|] == Written(e.out))
  {
    var c := |w.values|;
    var w1 := w.(values := w.values + [Undef], subs := w.subs + [[]], nodes := w.nodes + [Node(c, fn)]);
    assert Computed(w, fn, fuel) == RunComputed(w1, |w.nodes|, fuel);
    var wn := FirstRunWorld(w, fn);
    assert wn == w1.(slot := Some(|w.nodes|));
    assert Unread(wn, c);
    EvalKeepsUnread(wn, fn, fuel, c);
    var e := Eval(wn, fn, fuel);
    if e.out.Ok? || !Raises(e.out.failure) {
      WriteUnobserved(e.w.(slot := w.slot), c, Written(e.out), fuel);
    }
  }

  /**
   * For a function that only reads, construction settles at once and no
   * callback is called: the new signal holds the function's result (or
   * `undefined` after a falsy throw), or stays `undefined` when a truthy
   * failure reaches the caller; no other signal changes.
   */
  lemma ComputedReadOnlyFirstResult(w: World, fn: Expr, fuel: nat)
    requires Valid(w) && WriteFree(fn) && |w.values| !in Touched(fn, w.values + [Undef])
    ensures var r := Computed(w, fn, fuel);
      var p := Pure(fn, w.values + [Undef]);
      && r.w.log == w.log
      && (p.Err? && Raises(p.failure) ==> r.out == p && r.w.values == w.values + [Undef])
      && (p.Ok? || !Raises(p.failure) ==> r.out == Ok(Undef) && r.w.values == w.values + [Written(p)])
  {
    var w1 := w.(values := w.values + [Undef], subs := w.subs + [[]], nodes := w.nodes + [Node(|w.values|, fn)]);
    assert Valid(w1);
    assert Computed(w, fn, fuel) == RunComputed(w1, |w.nodes|, fuel);
    var p := Pure(fn, w1.values);
    if p.Err? && Raises(p.failure) {
      RunFailureKeepsValue(w1, |w.nodes|, fuel);
    } else {
      FirstRunSettles(w, w1, fn, fuel);
    }
  }

  lemma FirstRunSettles(w: World, w1: World, fn: Expr, fuel: nat)
    requires Valid(w) && WriteFree(fn) && |w.values| !in Touched(fn, w.values + [Undef])
    requires w1 == w.(values := w.values + [Undef], subs := w.subs + [[]], nodes := w.nodes + [Node(|w.values|, fn)])
    requires Valid(w1)
    requires var p := Pure(fn, w1.values); p.Ok? || !Raises(p.failure)
    ensures var r := RunComputed(w1, |w.nodes|, fuel);
      && r.out == Ok(Undef) && r.w.log == w.log
      && r.w.values == w.values + [Written(Pure(fn, w1.values))]
  {
    var c := |w.values|;
    assert w1.nodes[|w.nodes|] == Node(c, fn);
    assert w1.subs[c] == [] && AllExternal(w1.subs[c]);
    RunSettles(w1, |w.nodes|, fuel);
    var x := Written(Pure(fn, w1.values));
    assert Calls([], x, Undef) == [];
    assert w1.values[c := x] == w.values + [x];
    assert w.log + [] == w.log;
  }

  /**
   * Writing a signal that a computed signal is subscribed to re-runs it
   * synchronously: before the write returns, the computed signal holds its
   * function's result over the new values (its callbacks called once each
   * if that result changed), or, when the function fails, keeps its value
   * and the failure reaches the writer. The subscription is what triggers
   * the re-run, whether or not the function still reads the written signal.
   */
  lemma DependentRecomputes(w: World, s: nat, v: Value, n: nat, fuel: nat)
    requires Valid(w) && s < |w.values| && n < |w.nodes| && w.slot != Some(n)
    requires w.subs[s] == [Compute(n)] && v != w.values[s] && fuel > 0
    requires WriteFree(w.nodes[n].fn) && w.nodes[n].signal != s
    requires AllExternal(w.subs[w.nodes[n].signal])
    requires w.nodes[n].signal !in Touched(w.nodes[n].fn, w.values[s := v])
    ensures var r := Write(w, s, v, fuel);
      var c, p := w.nodes[n].signal, Pure(w.nodes[n].fn, w.values[s := v]);
      && (p.Err? && Raises(p.failure) ==> r.out == p && r.w.values == w.values[s := v] && r.w.log == w.log)
      && (p.Ok? || !Raises(p.failure) ==>
            var x := Written(p);
            && r.out == Ok(v)
            && r.w.values == w.values[s := v][c := x]
            && r.w.log == w.log + (if x == w.values[c] then [] else Calls(w.subs[c], x, w.values[c])))
  {
    var p := Pure(w.nodes[n].fn, w.values[s := v]);
    if p.Err? && Raises(p.failure) {
      DependentFailure(w, s, v, n, fuel);
    } else {
      DependentSuccess(w, s, v, n, fuel);
    }
  }

  /** The write to `s` is the run of `n` followed by the rest of the notification loop. */
  lemma WriteToDependency(w: World, s: nat, v: Value, n: nat, fuel: nat)
    requires Valid(w) && s < |w.values| && n < |w.nodes|
    requires w.subs[s] == [Compute(n)] && v != w.values[s] && fuel > 0
    ensures var w1 := w.(values := w.values[s := v]);
      var r1 := RunComputed(w1, n, fuel - 1);
      && Valid(w1)
      && (r1.out.Err? ==> Write(w, s, v, fuel) == r1)
      && (r1.out.Ok? && r1.w.subs[s] == [Compute(n)] ==> Write(w, s, v, fuel) == Step(r1.w, Ok(r1.w.values[s])))
  {
    var w1 := w.(values := w.values[s := v]);
    var r1 := CallSubscriber(w1, Compute(n), v, Some(w.values[s]), fuel);
    assert r1 == RunComputed(w1, n, fuel - 1);
    var r := Notify(w1, s, 0, w.values[s], fuel);
    assert Write(w, s, v, fuel) == if r.out.Err? then r else Step(r.w, Ok(r.w.values[s]));
    if r1.out.Err? {
      NotifyStopsAtFailure(w1, s, 0, w.values[s], fuel);
    } else if r1.w.subs[s] == [Compute(n)] {
      NotifyStep(w1, s, 0, w.values[s], fuel);
      NotifyDone(r1.w, s, w.values[s], fuel);
    }
  }

  lemma DependentFailure(w: World, s: nat, v: Value, n: nat, fuel: nat)
    requires Valid(w) && s < |w.values| && n < |w.nodes| && w.slot != Some(n)
    requires w.subs[s] == [Compute(n)] && v != w.values[s] && fuel > 0
    requires WriteFree(w.nodes[n].fn)
    requires var p := Pure(w.nodes[n].fn, w.values[s := v]); p.Err? && Raises(p.failure)
    ensures var r := Write(w, s, v, fuel);
      r.out == Pure(w.nodes[n].fn, w.values[s := v]) && r.w.values == w.values[s := v] && r.w.log == w.log
  {
    var w1 := w.(values := w.values[s := v]);
    RunFailureKeepsValue(w1, n, fuel - 1);
    var r1 := RunComputed(w1, n, fuel - 1);
    assert r1.out.Err?;
    WriteToDependency(w, s, v, n, fuel);
    assert Write(w, s, v, fuel) == r1;
  }

  lemma DependentSuccess(w: World, s: nat, v: Value, n: nat, fuel: nat)
    requires Valid(w) && s < |w.values| && n < |w.nodes| && w.slot != Some(n)
    requires w.subs[s] == [Compute(n)] && v != w.values[s] && fuel > 0
    requires WriteFree(w.nodes[n].fn) && w.nodes[n].signal != s
    requires AllExternal(w.subs[w.nodes[n].signal])
    requires w.nodes[n].signal !in Touched(w.nodes[n].fn, w.values[s := v])
    requires var p := Pure(w.nodes[n].fn, w.values[s := v]); p.Ok? || !Raises(p.failure)
    ensures var r := Write(w, s, v, fuel);
      var c, x := w.nodes[n].signal, Written(Pure(w.nodes[n].fn, w.values[s := v]));
      && r.out == Ok(v)
      && r.w.subs == SubscribeAll(w.subs, Touched(w.nodes[n].fn, w.values[s := v]), Compute(n))
      && r.w.values == w.values[s := v][c := x]
      && r.w.log == w.log + (if x == w.values[c] then [] else Calls(w.subs[c], x, w.values[c]))
  {
    var w1 := w.(values := w.values[s := v]);
    RunSettles(w1, n, fuel - 1);
    var r1 := RunComputed(w1, n, fuel - 1);
    var c := w.nodes[n].signal;
    assert r1.w.values == w1.values[c := Written(Pure(w.nodes[n].fn, w1.values))];
    assert r1.w.subs[s] == [Compute(n)];
    assert r1.w.values[s] == v;
    WriteToDependency(w, s, v, n, fuel);
    assert Write(w, s, v, fuel) == Step(r1.w, Ok(v));
  }

  /**
   * `s(undefined)` on a signal that a computed signal depends on is a write
   * too: whether the re-run succeeds or throws, a following `s()` returns
   * `undefined`.
   */
  lemma WriteUndefinedThenReadDependent(w: World, s: nat, n: nat, fuel: nat)
    requires Valid(w) && s < |w.values| && n < |w.nodes| && w.slot != Some(n)
    requires w.subs[s] == [Compute(n)] && fuel > 0
    requires WriteFree(w.nodes[n].fn) && w.nodes[n].signal != s
    requires AllExternal(w.subs[w.nodes[n].signal])
    requires w.nodes[n].signal !in Touched(w.nodes[n].fn, w.values[s := Undef])
    ensures Invoke(Invoke(w, s, Some(Undef), fuel).w, s, None, fuel).out == Ok(Undef)
  {
    if w.values[s] != Undef {
      DependentRecomputes(w, s, Undef, n, fuel);
    }
  }

  /** Subscribing `x` to signals whose sets already hold it changes nothing. */
  lemma SubscribeAllPresent(subs: seq<seq<Subscriber>>, t: set<nat>, x: Subscriber)
    requires forall k :: k in t && k < |subs| ==> x in subs[k]
    ensures SubscribeAll(subs, t, x) == subs
  {
  }

  /**
   * Computed signals chain: when computed signal `c` depends on `s` and
   * computed signal `b` depends on `c`'s own signal, writing `s` re-runs
   * `c`, whose write re-runs `b`, all before the write returns. Both then
   * hold their functions' results over the new values, and `b`'s callbacks
   * have been called once each if its result changed.
   */
  lemma Chain(w: World, s: nat, v: Value, c: nat, b: nat, fuel: nat)
    requires Valid(w) && s < |w.values| && c < |w.nodes| && b < |w.nodes| && w.slot.None? && fuel >= 2
    requires w.subs[s] == [Compute(c)] && v != w.values[s] && w.nodes[c].signal != s
    requires w.subs[w.nodes[c].signal] == [Compute(b)] && AllExternal(w.subs[w.nodes[b].signal])
    requires WriteFree(w.nodes[c].fn) && WriteFree(w.nodes[b].fn)
    requires Touched(w.nodes[c].fn, w.values[s := v]) <= {s}
    requires var pc := Pure(w.nodes[c].fn, w.values[s := v]);
      && (pc.Ok? || !Raises(pc.failure))
      && Written(pc) != w.values[w.nodes[c].signal]
      && Touched(w.nodes[b].fn, w.values[s := v][w.nodes[c].signal := Written(pc)]) <= {w.nodes[c].signal}
      && var pb := Pure(w.nodes[b].fn, w.values[s := v][w.nodes[c].signal := Written(pc)]);
         pb.Ok? || !Raises(pb.failure)
    ensures var sc, sb := w.nodes[c].signal, w.nodes[b].signal;
      var xc := Written(Pure(w.nodes[c].fn, w.values[s := v]));
      var xb := Written(Pure(w.nodes[b].fn, w.values[s := v][sc := xc]));
      var r := Write(w, s, v, fuel);
      && r.out == Ok(v)
      && r.w.values == w.values[s := v][sc := xc][sb := xb]
      && r.w.log == w.log + (if xb == w.values[sb] then [] else Calls(w.subs[sb], xb, w.values[sb]))
  {
    var sc, sb := w.nodes[c].signal, w.nodes[b].signal;
    var w1 := w.(values := w.values[s := v]);
    var xc := Written(Pure(w.nodes[c].fn, w1.values));
    var xb := Written(Pure(w.nodes[b].fn, w1.values[sc := xc]));
    assert sb != s && sb != sc by {
      assert Compute(c) in w.subs[s] && Compute(b) in w.subs[sc];
    }
    ChainRun(w1, c, b, xc, xb, fuel - 1);
    var r1 := RunComputed(w1, c, fuel - 1);
    assert r1.w.subs[s] == [Compute(c)] && r1.w.values[s] == v;
    WriteThroughRun(w, w1, s, v, c, fuel, r1.w);
  }

  /**
   * A read-only function already subscribed to everything it reads, and
   * not throwing: its run is the write of its result into its own signal.
   */
  lemma RunWritesResult(w: World, n: nat, fuel: nat)
    requires Valid(w) && n < |w.nodes| && w.slot != Some(n) && WriteFree(w.nodes[n].fn)
    requires forall k :: k in Touched(w.nodes[n].fn, w.values) && k < |w.subs| ==> Compute(n) in w.subs[k]
    requires var p := Pure(w.nodes[n].fn, w.values); p.Ok? || !Raises(p.failure)
    ensures var r := Write(w, w.nodes[n].signal, Written(Pure(w.nodes[n].fn, w.values)), fuel);
      RunComputed(w, n, fuel) == Step(r.w, if r.out.Err? then r.out else Ok(Undef))
  {
    SubscribeAllPresent(w.subs, Touched(w.nodes[n].fn, w.values), Compute(n));
    assert w.(subs := SubscribeAll(w.subs, Touched(w.nodes[n].fn, w.values), Compute(n))) == w;
    RunReadOnly(w, n, fuel);
  }

  /** The middle link of `Chain`: `c` re-runs, and its write re-runs `b`. */
  lemma ChainRun(w: World, c: nat, b: nat, xc: Value, xb: Value, fuel: nat)
    requires Valid(w) && c < |w.nodes| && b < |w.nodes| && w.slot.None? && fuel >= 1
    requires w.subs[w.nodes[c].signal] == [Compute(b)] && AllExternal(w.subs[w.nodes[b].signal])
    requires WriteFree(w.nodes[c].fn) && WriteFree(w.nodes[b].fn)
    requires forall k :: k in Touched(w.nodes[c].fn, w.values) && k < |w.subs| ==> Compute(c) in w.subs[k]
    requires var pc := Pure(w.nodes[c].fn, w.values); (pc.Ok? || !Raises(pc.failure)) && xc == Written(pc)
    requires xc != w.values[w.nodes[c].signal]
    requires Touched(w.nodes[b].fn, w.values[w.nodes[c].signal := xc]) <= {w.nodes[c].signal}
    requires var pb := Pure(w.nodes[b].fn, w.values[w.nodes[c].signal := xc]); (pb.Ok? || !Raises(pb.failure)) && xb == Written(pb)
    ensures var sc, sb := w.nodes[c].signal, w.nodes[b].signal;
      var r := RunComputed(w, c, fuel);
      && r.out == Ok(Undef) && r.w.subs == w.subs
      && r.w.values == w.values[sc := xc][sb := xb]
      && r.w.log == w.log + (if xb == w.values[sb] then [] else Calls(w.subs[sb], xb, w.values[sb]))
  {
    RunWritesResult(w, c, fuel);
    ChainWrite(w, w.nodes[c].signal, xc, b, fuel);
  }

  /**
   * The write that `Chain` ends with: its one subscriber, already subscribed
   * to what it reads, re-runs and leaves the subscriptions as they were.
   */
  lemma ChainWrite(w: World, s: nat, v: Value, n: nat, fuel: nat)
    requires Valid(w) && s < |w.values| && n < |w.nodes| && w.slot.None? && fuel > 0
    requires w.subs[s] == [Compute(n)] && v != w.values[s]
    requires WriteFree(w.nodes[n].fn) && AllExternal(w.subs[w.nodes[n].signal])
    requires Touched(w.nodes[n].fn, w.values[s := v]) <= {s}
    requires var p := Pure(w.nodes[n].fn, w.values[s := v]); p.Ok? || !Raises(p.failure)
    ensures var r := Write(w, s, v, fuel);
      var c, x := w.nodes[n].signal, Written(Pure(w.nodes[n].fn, w.values[s := v]));
      && r.out == Ok(v) && r.w.subs == w.subs
      && r.w.values == w.values[s := v][c := x]
      && r.w.log == w.log + (if x == w.values[c] then [] else Calls(w.subs[c], x, w.values[c]))
  {
    var c := w.nodes[n].signal;
    assert c != s by {
      assert Compute(n) in w.subs[s];
    }
    DependentSuccess(w, s, v, n, fuel);
    SubscribeAllPresent(w.subs, Touched(w.nodes[n].fn, w.values[s := v]), Compute(n));
  }

  /**
   * A computed signal whose function computes `v` by reads alone and writes
   * it into a signal `a` its routine is subscribed to (at position `i` of
   * `a`'s set) re-enters its own routine while that routine is in the slot.
   * The user callbacks ahead of it in `a`'s set are called first, each with
   * `(v, previous)`; then the run fails with "Circular computation
   * detected", the slot is restored, the write and the subscriptions made by
   * the reads stay, and nothing else happens.
   */
  lemma SelfTriggerIsCircular(w: World, n: nat, a: nat, e: Expr, i: nat, fuel: nat)
    requires Valid(w) && n < |w.nodes| && w.slot != Some(n) && a < |w.values| && fuel > 0
    requires w.nodes[n].fn == Assign(a, e) && WriteFree(e)
    requires Pure(e, w.values).Ok? && Pure(e, w.values).value != w.values[a]
    requires i < |w.subs[a]| && w.subs[a][i] == Compute(n) && AllExternal(w.subs[a][..i])
    ensures var v := Pure(e, w.values).value;
      RunComputed(w, n, fuel)
      == Step(w.(subs := SubscribeAll(w.subs, Touched(e, w.values), Compute(n)),
                 values := w.values[a := v],
                 log := w.log + Calls(w.subs[a][..i], v, w.values[a])),
              Err(Circular))
  {
    var v := Pure(e, w.values).value;
    var wn := w.(slot := Some(n));
    EvalWriteFree(wn, e, fuel);
    var we := wn.(subs := SubscribeAll(w.subs, Touched(e, w.values), Compute(n)));
    assert we.subs[a] == w.subs[a] by {
      assert Compute(n) in w.subs[a];
    }
    assert Eval(wn, e, fuel) == Step(we, Ok(v));
    SelfTriggerWrite(we, n, a, v, i, fuel);
    EvalAssign(wn, a, e, fuel);
    var wl := we.(values := w.values[a := v], log := w.log + Calls(w.subs[a][..i], v, w.values[a]));
    assert Eval(wn, Assign(a, e), fuel) == Step(wl, Err(Circular));
  }

  /** `s(e)` inside a user function: once `e` has a value, the rest is the ordinary write. */
  lemma EvalAssign(w: World, a: nat, e: Expr, fuel: nat)
    requires Valid(w) && a < |w.values| && Eval(w, e, fuel).out.Ok?
    ensures Eval(w, Assign(a, e), fuel) == Write(Eval(w, e, fuel).w, a, Eval(w, e, fuel).out.value, fuel)
  {
  }

  /** The write of a routine that sits in the slot reaches the routine itself after the user callbacks ahead of it. */
  lemma SelfTriggerWrite(w: World, n: nat, a: nat, v: Value, i: nat, fuel: nat)
    requires Valid(w) && n < |w.nodes| && w.slot == Some(n) && a < |w.values| && fuel > 0 && v != w.values[a]
    requires i < |w.subs[a]| && w.subs[a][i] == Compute(n) && AllExternal(w.subs[a][..i])
    ensures Write(w, a, v, fuel)
         == Step(w.(values := w.values[a := v], log := w.log + Calls(w.subs[a][..i], v, w.values[a])), Err(Circular))
  {
    var wv := w.(values := w.values[a := v]);
    assert wv.subs[a][0..i] == w.subs[a][..i];
    NotifyExternalPrefix(wv, a, 0, i, w.values[a], fuel);
    var wl := wv.(log := wv.log + Calls(w.subs[a][..i], v, w.values[a]));
    assert CallSubscriber(wl, Compute(n), v, Some(w.values[a]), fuel) == Step(wl, Err(Circular));
    NotifyStopsAtFailure(wl, a, i, w.values[a], fuel);
  }

  /**
   * Propagation never drops or reorders a subscription: a computed signal
   * stays subscribed to every signal it read on any earlier run.
   */
  lemma WriteKeepsSubscriptions(w: World, s: nat, v: Value, fuel: nat, t: nat, i: nat)
    requires Valid(w) && s < |w.values| && t < |w.subs| && i < |w.subs[t]|
    ensures var r := Write(w, s, v, fuel); i < |r.w.subs[t]| && r.w.subs[t][i] == w.subs[t][i]
  {
    var r := Write(w, s, v, fuel);
    assert w.subs[t] <= r.w.subs[t];
  }

  // ---------------------------------------------------------------------
  // The re-entrancy guard compares the innermost slot only
  // ---------------------------------------------------------------------

  /** Writing a signal nobody is subscribed to only stores the value. */
  lemma WriteUnobserved(w: World, s: nat, v: Value, fuel: nat)
    requires Valid(w) && s < |w.values| && w.subs[s] == []
    ensures Write(w, s, v, fuel) == Step(w.(values := w.values[s := v]), Ok(if v == w.values[s] then Undef else v))
  {
    if v != w.values[s] {
      NotifyDone(w.(values := w.values[s := v]), s, w.values[s], fuel);
    } else {
      assert w.values[s := v] == w.values;
    }
  }

  /** A read by a routine already subscribed to the signal adds nothing: only what follows it counts. */
  lemma EvalReadThen(w: World, rd: nat, e: Expr, fuel: nat)
    requires Valid(w) && w.slot.Some? && rd < |w.values| && Compute(w.slot.value) in w.subs[rd]
    ensures Eval(w, Then(Get(rd), e), fuel) == Eval(w, e, fuel)
  {
    assert w.subs[rd := w.subs[rd]] == w.subs;
    assert Read(w, rd) == Step(w, Ok(w.values[rd]));
  }

  /**
   * A run of a computed signal whose function is `rd(); t(v)`, whose routine
   * is already subscribed to `rd` and whose own signal nobody observes: the
   * write of `t` with the routine in the slot, then the slot restored and the
   * write's result stored in the signal.
   */
  lemma RunAssign(w: World, n: nat, c: nat, rd: nat, t: nat, v: Value, fuel: nat, e: Step)
    requires Valid(w) && n < |w.nodes| && w.slot != Some(n) && t < |w.values| && rd < |w.values|
    requires w.nodes[n] == Node(c, Then(Get(rd), Assign(t, Lit(v)))) && Compute(n) in w.subs[rd] && w.subs[c] == []
    requires Write(w.(slot := Some(n)), t, v, fuel) == e && e.out.Ok? && e.w.subs[c] == []
    ensures RunComputed(w, n, fuel) == Step(e.w.(slot := w.slot, values := e.w.values[c := e.out.value]), Ok(Undef))
  {
    var wn := w.(slot := Some(n));
    assert Eval(wn, Lit(v), fuel) == Step(wn, Ok(v));
    EvalAssign(wn, t, Lit(v), fuel);
    EvalReadThen(wn, rd, Assign(t, Lit(v)), fuel);
    assert Eval(wn, w.nodes[n].fn, fuel) == e;
    var w2 := e.w.(slot := w.slot);
    assert RunComputed(w, n, fuel) == (var r := Write(w2, c, e.out.value, fuel); Step(r.w, if r.out.Err? then r.out else Ok(Undef)));
    WriteUnobserved(w2, c, e.out.value, fuel);
  }

  /**
   * The worlds in which two computed signals form a cycle over four plain
   * signals: node 0 (owning signal 2) reads signal 1 and writes `v` into
   * signal 0; node 1 (owning signal 3) reads signal 0 and writes `u` into
   * signal 1. Each routine is subscribed to the signal its function reads,
   * as an earlier run leaves it, and nobody observes signals 2 and 3.
   */
  ghost predicate Cycle(w: World, v: Value, u: Value)
  {
    && Valid(w) && w.slot.None? && |w.nodes| == 2 && |w.values| == 4
    && w.nodes[0] == Node(2, Then(Get(1), Assign(0, Lit(v)))) && w.nodes[1] == Node(3, Then(Get(0), Assign(1, Lit(u))))
    && w.subs == [[Compute(1)], [Compute(0)], [], []]
    && w.values[0] != v && w.values[1] != u
  }

  /**
   * Running node 0 of such a cycle re-enters node 0 through node 1 while
   * node 1, not node 0, sits in the slot: the guard lets the nested run
   * through, and the whole run succeeds instead of failing with "Circular
   * computation detected". The nested run's own write of signal 0 is a
   * no-op, so it stores `undefined` in signal 2, and the outer run then
   * stores `v` there.
   */
  lemma IndirectCycleNotDetected(w: World, v: Value, u: Value, fuel: nat)
    requires Cycle(w, v, u) && fuel >= 2
    ensures RunComputed(w, 0, fuel) == Step(w.(values := [v, u, v, u]), Ok(Undef))
  {
    var w3 := w.(values := [v, u, Undef, u], slot := Some(0));
    CycleOuterWrite(w.(slot := Some(0)), v, u, fuel);
    RunAssign(w, 0, 2, 1, 0, v, fuel, Step(w3, Ok(v)));
    assert w3.(slot := None).(values := w3.values[2 := v]) == w.(values := [v, u, v, u]);
  }

  /** Node 0's write of signal 0 runs node 1 (and, through it, node 0 again), then the loop is over. */
  lemma CycleOuterWrite(wa: World, v: Value, u: Value, fuel: nat)
    requires Valid(wa) && wa.slot == Some(0) && |wa.nodes| == 2 && |wa.values| == 4 && fuel >= 2
    requires wa.nodes[0] == Node(2, Then(Get(1), Assign(0, Lit(v)))) && wa.nodes[1] == Node(3, Then(Get(0), Assign(1, Lit(u))))
    requires wa.subs == [[Compute(1)], [Compute(0)], [], []]
    requires wa.values[0] != v && wa.values[1] != u
    ensures Write(wa, 0, v, fuel) == Step(wa.(values := [v, u, Undef, u]), Ok(v))
  {
    var w1 := wa.(values := wa.values[0 := v]);
    CycleInner(w1, v, u, fuel - 1);
    WriteThroughRun(wa, w1, 0, v, 1, fuel, wa.(values := [v, u, Undef, u]));
  }

  /** Node 1's run, from node 0's write of signal 0, with node 0 in the slot. */
  lemma CycleInner(w1: World, v: Value, u: Value, fuel: nat)
    requires Valid(w1) && w1.slot == Some(0) && |w1.nodes| == 2 && |w1.values| == 4 && fuel >= 1
    requires w1.nodes[0] == Node(2, Then(Get(1), Assign(0, Lit(v)))) && w1.nodes[1] == Node(3, Then(Get(0), Assign(1, Lit(u))))
    requires w1.subs == [[Compute(1)], [Compute(0)], [], []]
    requires w1.values[0] == v && w1.values[1] != u
    ensures RunComputed(w1, 1, fuel) == Step(w1.(values := [v, u, Undef, u]), Ok(Undef))
  {
    var wb := w1.(slot := Some(1));
    var wi2 := wb.(values := wb.values[1 := u][2 := Undef]);
    CycleInnerWrite(wb, v, u, fuel);
    RunAssign(w1, 1, 3, 0, 1, u, fuel, Step(wi2, Ok(u)));
    assert wi2.(slot := Some(0), values := wi2.values[3 := u]) == w1.(values := [v, u, Undef, u]);
  }

  /** Node 1's write of signal 1 re-runs node 0 while node 1 is in the slot; node 0's write is then a no-op. */
  lemma CycleInnerWrite(wb: World, v: Value, u: Value, fuel: nat)
    requires Valid(wb) && wb.slot == Some(1) && |wb.nodes| == 2 && |wb.values| == 4 && fuel >= 1
    requires wb.nodes[0] == Node(2, Then(Get(1), Assign(0, Lit(v)))) && wb.subs == [[Compute(1)], [Compute(0)], [], []]
    requires wb.values[0] == v && wb.values[1] != u
    ensures Write(wb, 1, u, fuel) == Step(wb.(values := wb.values[1 := u][2 := Undef]), Ok(u))
  {
    WriteRerunsNoOp(wb, 1, u, 0, 2, 1, 0, v, fuel);
  }

  /**
   * A write whose only subscriber is a computed signal whose function
   * reads `rd` (already subscribed) and writes `t` with the value `t` holds
   * by then: the run stores `undefined` in its unobserved signal, and the
   * write is over.
   */
  lemma WriteRerunsNoOp(w: World, s: nat, v: Value, n: nat, c: nat, rd: nat, t: nat, tv: Value, fuel: nat)
    requires Valid(w) && s < |w.values| && n < |w.nodes| && w.slot != Some(n)
    requires w.subs[s] == [Compute(n)] && v != w.values[s] && fuel > 0
    requires w.nodes[n] == Node(c, Then(Get(rd), Assign(t, Lit(tv)))) && t < |w.values| && c < |w.values| && c != s
    requires rd < |w.values| && Compute(n) in w.subs[rd]
    requires w.subs[c] == [] && w.values[s := v][t] == tv
    ensures Write(w, s, v, fuel) == Step(w.(values := w.values[s := v][c := Undef]), Ok(v))
  {
    var wi := w.(values := w.values[s := v]);
    var wi2 := wi.(values := wi.values[c := Undef]);
    assert wi2 == w.(values := w.values[s := v][c := Undef]);
    assert Valid(wi) && wi.subs[c] == [] && wi.values[t] == tv;
    RunNoOpAssign(wi, n, c, rd, t, tv, fuel - 1);
    assert RunComputed(wi, n, fuel - 1) == Step(wi2, Ok(Undef));
    assert wi2.subs[s] == [Compute(n)] && wi2.values[s] == v;
    WriteThroughRun(w, wi, s, v, n, fuel, wi2);
  }

  /** A write whose only subscriber is a computed signal that succeeds and stays subscribed returns once that run is over. */
  lemma WriteThroughRun(w: World, w1: World, s: nat, v: Value, n: nat, fuel: nat, w2: World)
    requires Valid(w) && s < |w.values| && n < |w.nodes|
    requires w.subs[s] == [Compute(n)] && v != w.values[s] && fuel > 0
    requires w1 == w.(values := w.values[s := v])
    requires RunComputed(w1, n, fuel - 1) == Step(w2, Ok(Undef))
    requires w2.subs[s] == [Compute(n)] && w2.values[s] == v
    ensures Write(w, s, v, fuel) == Step(w2, Ok(v))
  {
    WriteToDependency(w, s, v, n, fuel);
  }

  /** A run whose function reads `rd` and writes `t` with the value `t` already holds stores `undefined` in its signal. */
  lemma RunNoOpAssign(w: World, n: nat, c: nat, rd: nat, t: nat, v: Value, fuel: nat)
    requires Valid(w) && n < |w.nodes| && w.slot != Some(n) && t < |w.values| && w.values[t] == v
    requires rd < |w.values| && Compute(n) in w.subs[rd]
    requires w.nodes[n] == Node(c, Then(Get(rd), Assign(t, Lit(v)))) && w.subs[c] == []
    ensures RunComputed(w, n, fuel) == Step(w.(values := w.values[c := Undef]), Ok(Undef))
  {
    var wn := w.(slot := Some(n));
    RunAssign(w, n, c, rd, t, v, fuel, Step(wn, Ok(Undef)));
    assert wn.(slot := w.slot) == w;
  }
}
