/**
 * The reactive engine of src/index.ts as functions on a value `World`:
 * every signal created so far, the subscriber set of each, the computed
 * signals, the global tracking slot `computeFunc` and the calls made to
 * user callbacks. Each operation returns the new world and its outcome;
 * the class in module Trkl runs the same operations in place and is
 * proved to agree with these functions.
 */
module Semantics {
  import opened Values
  import opened Subscribers

  /**
   * The user function of a computed signal, as a small expression
   * language: constants, reading a signal (`s()`), addition, a conditional
   * on truthiness, sequencing, writing a signal (`s(v)`) and throwing a value.
   */
  datatype Expr =
    | Lit(v: Value)
    | Get(sig: nat)
    | Plus(left: Expr, right: Expr)
    | Cond(test: Expr, thn: Expr, els: Expr)
    | Then(first: Expr, second: Expr)
    | Assign(target: nat, arg: Expr)
    | Raise(thrown: Value)

  /**
   * What can be thrown: the "Circular computation detected" error, a
   * reference to a signal that does not exist, a non-numeric operand of
   * `Plus`, the exhausted call stack, or a value thrown by the user function.
   */
  datatype Failure =
    | Circular
    | NoSuchSignal
    | NotANumber
    | StackOverflow
    | Thrown(thrown: Value)

  /** `if (err) throw err;` re-raises only a truthy error; Error objects are truthy. */
  predicate Raises(f: Failure)
  {
    !f.Thrown? || Truthy(f.thrown)
  }

  datatype Outcome = Ok(value: Value) | Err(failure: Failure)

  /** A computed signal: the plain signal it owns and its user function. */
  datatype Node = Node(signal: nat, fn: Expr)

  /** One call of a user callback: `(newVal)` when subscribed with `immediate`, else `(newVal, oldVal)`. */
  datatype Call = Call(callback: nat, newVal: Value, oldVal: Option<Value>)

  /**
   * Signal `s` holds `values[s]` and `subs[s]`; computed signal `n` is
   * `nodes[n]`; `slot` is `computeFunc` (`Some(n)` when the routine of
   * computed signal `n` is installed); `log` lists the calls of user callbacks.
   */
  datatype World = World(
    values: seq<Value>,
    subs: seq<seq<Subscriber>>,
    nodes: seq<Node>,
    slot: Option<nat>,
    log: seq<Call>)

  /** The world after an operation, and what the operation returned or threw. */
  datatype Step = Step(w: World, out: Outcome)

  ghost predicate Valid(w: World)
  {
    && |w.subs| == |w.values|
    && (forall s :: 0 <= s < |w.subs| ==> NoDups(w.subs[s]) && NodesBelow(w.subs[s], |w.nodes|))
    && (forall k :: 0 <= k < |w.nodes| ==> w.nodes[k].signal < |w.values|)
    && (w.slot.Some? ==> w.slot.value < |w.nodes|)
  }

  /**
   * `w'` is `w` after propagation: no signal or computed signal appears or
   * disappears, no subscription is dropped or reordered, subscriptions are
   * added only for computed signals, and calls are only appended to the log.
   */
  ghost predicate Grows(w: World, w': World)
  {
    && |w'.values| == |w.values|
    && |w'.subs| == |w.subs|
    && w'.nodes == w.nodes
    && w.log <= w'.log
    && forall s :: 0 <= s < |w.subs| ==> w.subs[s] <= w'.subs[s] && ExtCount(w'.subs[s]) == ExtCount(w.subs[s])
  }

  lemma GrowsTrans(a: World, b: World, c: World)
    requires Grows(a, b) && Grows(b, c)
    ensures Grows(a, c)
  {
    forall s | 0 <= s < |a.subs| ensures a.subs[s] <= c.subs[s] {
      assert a.subs[s] <= b.subs[s] && b.subs[s] <= c.subs[s];
    }
  }

  /**
   * Upper bound on the length of `subs[s]` during propagation: only
   * computed subscribers are added, and each at most once.
   */
  function Bound(w: World, s: nat): nat
    requires s < |w.subs|
  {
    ExtCount(w.subs[s]) + |w.nodes|
  }

  lemma SubsBounded(w: World, s: nat)
    requires Valid(w) && s < |w.subs|
    ensures |w.subs[s]| <= Bound(w, s)
  {
    ComputeEntriesBounded(w.subs[s], |w.nodes|);
  }

  /** A new plain signal holding `init` with no subscribers (`trkl(initValue)`). */
  function Create(w: World, init: Value): (r: World)
    requires Valid(w)
    ensures Valid(r)
    ensures r.values == w.values + [init] && r.subs == w.subs + [[]]
    ensures r.nodes == w.nodes && r.slot == w.slot && r.log == w.log
  {
    w.(values := w.values + [init], subs := w.subs + [[]])
  }

  /**
   * `read()`: returns the current value and, when a computation sits in the
   * tracking slot, subscribes it to the signal (a set insertion).
   */
  function Read(w: World, s: nat): (r: Step)
    requires Valid(w) && s < |w.values|
    ensures r.out == Ok(w.values[s])
    ensures Valid(r.w) && Grows(w, r.w)
    ensures r.w.values == w.values && r.w.log == w.log && r.w.slot == w.slot
    ensures w.slot.None? ==> r.w == w
    ensures w.slot.Some? ==> r.w.subs == w.subs[s := Insert(w.subs[s], Compute(w.slot.value))]
  {
    if w.slot.Some? then
      InsertComputeKeepsExtCount(w.subs[s], w.slot.value);
      Step(w.(subs := w.subs[s := Insert(w.subs[s], Compute(w.slot.value))]), Ok(w.values[s]))
    else
      Step(w, Ok(w.values[s]))
  }

  /**
   * `write(newValue)`: nothing happens and `undefined` is returned when the
   * value is `===` the current one; otherwise the value is stored first, then
   * every subscriber is called, and the value the signal holds afterwards is
   * returned. A failure thrown by a subscriber stops the notification and
   * propagates.
   */
  function Write(w: World, s: nat, v: Value, fuel: nat): (r: Step)
    requires Valid(w) && s < |w.values|
    ensures Valid(r.w) && Grows(w, r.w) && r.w.slot == w.slot
    ensures v == w.values[s] ==> r == Step(w, Ok(Undef))
    ensures v != w.values[s] && r.out.Ok? ==> r.out.value == r.w.values[s]
    decreases fuel, 1
  {
    if v == w.values[s] then
      Step(w, Ok(Undef))
    else
      var r := Notify(w.(values := w.values[s := v]), s, 0, w.values[s], fuel);
      if r.out.Err? then r else Step(r.w, Ok(r.w.values[s]))
  }

  /**
   * Calls one subscriber with `(newVal, oldVal)`, or with `(newVal)` alone
   * when `oldVal` is `None`. A user callback is recorded in the log; a
   * computed signal's routine is re-run with one unit less of stack `fuel`.
   */
  function CallSubscriber(w: World, sub: Subscriber, newVal: Value, oldVal: Option<Value>, fuel: nat): (r: Step)
    requires Valid(w) && (sub.Compute? ==> sub.node < |w.nodes|)
    ensures Valid(r.w) && Grows(w, r.w) && r.w.slot == w.slot
    ensures sub.External? ==> r == Step(w.(log := w.log + [Call(sub.id, newVal, oldVal)]), Ok(Undef))
    decreases fuel, 0, 0, 0
  {
    match sub
    case External(id) => Step(w.(log := w.log + [Call(id, newVal, oldVal)]), Ok(Undef))
    case Compute(n) =>
      if fuel == 0 then Step(w, Err(StackOverflow)) else RunComputed(w, n, fuel - 1)
  }

  /**
   * The loop `for (const sub of subscribers) sub(val, oldValue)`, from the
   * `i`-th entry of the live subscriber sequence on: entries added while it
   * runs are visited too, and `val` is read afresh for every call. The first
   * failure stops the loop.
   */
  function Notify(w: World, s: nat, i: nat, oldValue: Value, fuel: nat): (r: Step)
    requires Valid(w) && s < |w.values| && i <= |w.subs[s]|
    ensures Valid(r.w) && Grows(w, r.w) && r.w.slot == w.slot
    decreases fuel, 0, Bound(w, s) - i, 1
  {
    SubsBounded(w, s);
    if i == |w.subs[s]| then
      Step(w, Ok(Undef))
    else
      var r1 := CallSubscriber(w, w.subs[s][i], w.values[s], Some(oldValue), fuel);
      if r1.out.Err? then
        r1
      else
        SubsBounded(r1.w, s);
        var r := Notify(r1.w, s, i + 1, oldValue, fuel);
        GrowsTrans(w, r1.w, r.w);
        r
  }

  /** The notification loop ends once every entry has been called. */
  lemma NotifyDone(w: World, s: nat, oldValue: Value, fuel: nat)
    requires Valid(w) && s < |w.values|
    ensures Notify(w, s, |w.subs[s]|, oldValue, fuel) == Step(w, Ok(Undef))
  {
  }

  /** The first failing call ends the notification loop, and its failure is the loop's. */
  lemma NotifyStopsAtFailure(w: World, s: nat, i: nat, oldValue: Value, fuel: nat)
    requires Valid(w) && s < |w.values| && i < |w.subs[s]|
    requires CallSubscriber(w, w.subs[s][i], w.values[s], Some(oldValue), fuel).out.Err?
    ensures Notify(w, s, i, oldValue, fuel) == CallSubscriber(w, w.subs[s][i], w.values[s], Some(oldValue), fuel)
  {
  }

  /** One step of the notification loop. */
  lemma NotifyStep(w: World, s: nat, i: nat, oldValue: Value, fuel: nat)
    requires Valid(w) && s < |w.values| && i < |w.subs[s]|
    requires CallSubscriber(w, w.subs[s][i], w.values[s], Some(oldValue), fuel).out.Ok?
    ensures i + 1 <= |CallSubscriber(w, w.subs[s][i], w.values[s], Some(oldValue), fuel).w.subs[s]|
    ensures Notify(w, s, i, oldValue, fuel)
         == Notify(CallSubscriber(w, w.subs[s][i], w.values[s], Some(oldValue), fuel).w, s, i + 1, oldValue, fuel)
  {
  }

  /**
   * `runComputed()` of computed signal `n`: refuses to re-enter itself when
   * it already sits in the tracking slot; otherwise installs itself, runs the
   * user function, restores the slot, re-throws a truthy failure and writes
   * the result (`undefined` after a falsy throw) into its own signal.
   */
  function RunComputed(w: World, n: nat, fuel: nat): (r: Step)
    requires Valid(w) && n < |w.nodes|
    ensures Valid(r.w) && Grows(w, r.w)
    ensures r.w.slot == w.slot
    ensures w.slot == Some(n) ==> r == Step(w, Err(Circular))
    ensures r.out.Ok? ==> r.out.value == Undef
    decreases fuel, 3
  {
    if w.slot == Some(n) then
      Step(w, Err(Circular))
    else
      var w1 := w.(slot := Some(n));
      var e := Eval(w1, w.nodes[n].fn, fuel);
      var w2 := e.w.(slot := w.slot);
      GrowsTrans(w, w1, e.w);
      GrowsTrans(w, e.w, w2);
      if e.out.Err? && Raises(e.out.failure) then
        Step(w2, e.out)
      else
        var r := Write(w2, w.nodes[n].signal, Written(e.out), fuel);
        GrowsTrans(w, w2, r.w);
        Step(r.w, if r.out.Err? then r.out else Ok(Undef))
  }

  /** What `runComputed` writes: the result of the user function, or `undefined` when it threw. */
  function Written(o: Outcome): Value
  {
    if o.Ok? then o.value else Undef
  }

  /** `+` of the expression language: integer addition; any other operand throws. */
  function Sum(a: Value, b: Value): (r: Outcome)
    ensures r.Ok? <==> a.Num? && b.Num?
    ensures r.Ok? ==> r.value == Num(a.n + b.n)
  {
    if a.Num? && b.Num? then Ok(Num(a.n + b.n)) else Err(NotANumber)
  }

  /** Runs a user function against the world; reads go through `Read`, writes through `Write`. */
  function Eval(w: World, e: Expr, fuel: nat): (r: Step)
    requires Valid(w)
    ensures Valid(r.w) && Grows(w, r.w) && r.w.slot == w.slot
    decreases fuel, 2, e
  {
    match e
    case Lit(v) => Step(w, Ok(v))
    case Get(s) =>
      if s < |w.values| then Read(w, s) else Step(w, Err(NoSuchSignal))
    case Plus(a, b) =>
      var ra := Eval(w, a, fuel);
      if ra.out.Err? then ra
      else
        var rb := Eval(ra.w, b, fuel);
        GrowsTrans(w, ra.w, rb.w);
        if rb.out.Err? then rb else Step(rb.w, Sum(ra.out.value, rb.out.value))
    case Cond(c, t, f) =>
      var rc := Eval(w, c, fuel);
      if rc.out.Err? then rc
      else
        var rb := if Truthy(rc.out.value) then Eval(rc.w, t, fuel) else Eval(rc.w, f, fuel);
        GrowsTrans(w, rc.w, rb.w);
        rb
    case Then(a, b) =>
      var ra := Eval(w, a, fuel);
      if ra.out.Err? then ra
      else
        var rb := Eval(ra.w, b, fuel);
        GrowsTrans(w, ra.w, rb.w);
        rb
    case Assign(s, a) =>
      if s >= |w.values| then Step(w, Err(NoSuchSignal))
      else
        var ra := Eval(w, a, fuel);
        if ra.out.Err? then ra
        else
          var rb := Write(ra.w, s, ra.out.value, fuel);
          GrowsTrans(w, ra.w, rb.w);
          rb
    case Raise(v) => Step(w, Err(Thrown(v)))
  }

  /**
   * `trkl.computed(fn)`: a new plain signal holding `undefined`, a new
   * computed signal owning it, and one run of its routine. The new signal
   * is number `|w.values|`.
   */
  function Computed(w: World, fn: Expr, fuel: nat): (r: Step)
    requires Valid(w)
    ensures |r.w.values| == |w.values| + 1 && r.w.nodes == w.nodes + [Node(|w.values|, fn)]
    ensures Valid(r.w) && r.w.slot == w.slot && w.log <= r.w.log
  {
    var w1 := w.(values := w.values + [Undef], subs := w.subs + [[]], nodes := w.nodes + [Node(|w.values|, fn)]);
    RunComputed(w1, |w.nodes|, fuel)
  }

  /** `signal()` reads and `signal(v)` writes, told apart by the number of arguments. */
  function Invoke(w: World, s: nat, arg: Option<Value>, fuel: nat): (r: Step)
    requires Valid(w) && s < |w.values|
    ensures Valid(r.w) && Grows(w, r.w) && r.w.slot == w.slot
    ensures arg.None? ==> r.out == Ok(w.values[s]) && r.w.values == w.values && r.w.log == w.log
  {
    match arg
    case None => Read(w, s)
    case Some(v) => Write(w, s, v, fuel)
  }
}
