/**
 * Re-entry through the single guard slot.
 *
 * `handleChange` keeps one guard, `insideCallback`. Every change of *any*
 * property overwrites it with that property's callback hash (null when the
 * property has no callback), and the `finally` sets it to null rather than
 * back to the value it replaced. So once a running callback's write changes
 * another property, the guard no longer names the running callback, and the
 * callback's next write to its own property runs it again, nested inside
 * itself. A callback that keeps changing values then nests until the stack
 * overflows.
 *
 * The first half of this module exhibits that on the engine as written
 * (`Propagate` and `ApplyWrite` of module Props). The second half is the
 * engine as its tests describe it: the guard is the set of callbacks running
 * now, a callback is skipped while it runs, and leaving it restores the set.
 * For that engine, callbacks are never re-entered, stacks that have room for
 * every callback once never overflow, and every property stays reconciled.
 */
module PropsReentry {
  import opened Wrappers
  import opened Props

  /** Key 0's callback (hash 7): copy the new value to key 1's `sys`, then set its own `sys` one higher. */
  function Chase(): Callback<int> {
    Callback(7, (d: Delta<int>) => Reaction([Write(1, SysLayer, Some(d.cur)), Write(0, SysLayer, Some(d.cur + 1))], false))
  }

  /** Key 0 carries `Chase`; key 1 has no callback. Both default to 0. */
  function ChaseProps(): map<PropKey, Prop<int>> {
    map[0 := Prop(0, Some(Chase())), 1 := Prop(0, None)]
  }

  /**
   * As written: with key 0's `sys` at `n`, its `cur` elsewhere and key 1 at
   * `n - 1`, handling the change nests `Chase` once per stack level and ends in
   * a stack overflow, whatever the stack depth. Every run is key 0's callback.
   */
  lemma {:induction false} ChaseNests(st: Store<int>, n: int, fuel: nat)
    requires Lookup(st.sys, 0) == Some(n) && CurOf(st, ChaseProps()[0], 0) != n
    requires CurOf(st, ChaseProps()[1], 1) == n - 1 && EffectiveOf(st, ChaseProps()[1], 1) == n - 1
    requires st.inside == None
    ensures var r := Propagate(ChaseProps(), st, SYS, 0, fuel);
      && r.outcome == Thrown && |r.log| == fuel
      && forall i | 0 <= i < |r.log| :: r.log[i].key == 0
    decreases fuel
  {
    if fuel > 0 {
      var props := ChaseProps();
      var st1 := Reconcile(props, st, 0);
      var d := Delta(SYS, n, CurOf(st, props[0], 0), Lookup(st.usr, 0), Lookup(st.sys, 0));
      assert Propagate(props, st, SYS, 0, fuel) == Invoke(props, st1, 0, Chase(), d, fuel - 1);
      var ws := Chase().run(d).writes;
      assert ws == [Write(1, SysLayer, Some(n)), Write(0, SysLayer, Some(n + 1))];
      var guarded := st1.(inside := Some(7));
      // Key 1 moves from n - 1 to n and has no callback: the guard is dropped.
      var s1 := Stored(guarded, ws[0]);
      assert EffectiveOf(s1, props[1], 1) == n;
      assert CurOf(s1, props[1], 1) == n - 1;
      var first := ApplyWrite(props, guarded, ws[0], fuel - 1);
      assert 1 in props && props[1].onChange == None;
      assert first == Propagate(props, s1, SYS, 1, fuel - 1);
      assert first == Run(Reconcile(props, s1, 1).(inside := None), Returned, []);
      // Key 0's own write then finds no guard, and its callback runs again.
      var s2 := Stored(first.store, ws[1]);
      assert Lookup(s2.cur, 0) == Lookup(st1.cur, 0);
      ChaseNests(s2, n + 1, fuel - 1);
      var rest := ApplyWrite(props, first.store, ws[1], fuel - 1);
      assert rest == Propagate(props, s2, SYS, 0, fuel - 1);
      assert ws[1..] == [ws[1]];
      assert ApplyWrites(props, first.store, ws[1..], fuel - 1) == rest;
      assert ApplyWrites(props, guarded, ws, fuel - 1) == Run(rest.store, Thrown, [] + rest.log);
    }
  }

  /** As written: `sys = 1` on key 0 runs `Chase` nested `fuel` deep and overflows, for every stack depth. */
  lemma ChaseOverflowsAsWritten(fuel: nat)
    ensures var r := ApplyWrite(ChaseProps(), EmptyStore(), Write(0, SysLayer, Some(1)), fuel);
      && r.outcome == Thrown && |r.log| == fuel
      && forall i | 0 <= i < |r.log| :: r.log[i].key == 0
  {
    var st := Stored(EmptyStore<int>(), Write(0, SysLayer, Some(1)));
    ChaseNests(st, 1, fuel);
  }

  // ---------------------------------------------------------------------------
  // The corrected engine: the guard is the set `running` of callbacks in progress.
  // The store's single slot `inside` is not used by it.
  // ---------------------------------------------------------------------------

  function ApplyWriteG<V(==)>(props: map<PropKey, Prop<V>>, st: Store<V>, w: Write<V>, running: set<nat>, fuel: nat): Run<V>
    decreases fuel, 1
  {
    if w.key !in props then Run(st, Returned, [])
    else PropagateG(props, Stored(st, w), SourceOf(w.layer), w.key, running, fuel)
  }

  /** `handleChange` with the corrected guard: a callback already in progress is skipped. */
  function PropagateG<V(==)>(props: map<PropKey, Prop<V>>, st: Store<V>, src: PropChangeSource, k: PropKey, running: set<nat>, fuel: nat): Run<V>
    requires k in props
    decreases fuel, 0
  {
    var p := props[k];
    var prv := CurOf(st, p, k);
    var c := EffectiveOf(st, p, k);
    var st1 := Reconcile(props, st, k);
    if c == prv then Run(st1, Returned, [])
    else match p.onChange
      case None => Run(st1, Returned, [])
      case Some(cb) =>
        if cb.id in running then Run(st1, Returned, [])
        else if fuel == 0 then Run(st1, Thrown, [])
        else InvokeG(props, st1, k, cb, Delta(src, c, prv, Lookup(st.usr, k), Lookup(st.sys, k)), running, fuel - 1)
  }

  /** The callback runs with itself added to `running`; leaving restores `running` because it is a parameter. */
  function InvokeG<V(==)>(props: map<PropKey, Prop<V>>, st: Store<V>, k: PropKey, cb: Callback<V>, d: Delta<V>, running: set<nat>, fuel: nat): Run<V>
    decreases fuel, 3
  {
    var r := cb.run(d);
    var inner := ApplyWritesG(props, st, r.writes, running + {cb.id}, fuel);
    Run(inner.store, if r.throws then Thrown else inner.outcome, [Delivery(k, d)] + inner.log)
  }

  function ApplyWritesG<V(==)>(props: map<PropKey, Prop<V>>, st: Store<V>, ws: seq<Write<V>>, running: set<nat>, fuel: nat): Run<V>
    decreases fuel, 2, |ws|
  {
    if ws == [] then Run(st, Returned, [])
    else
      var first := ApplyWriteG(props, st, ws[0], running, fuel);
      if first.outcome == Thrown then first
      else
        var rest := ApplyWritesG(props, first.store, ws[1..], running, fuel);
        Run(rest.store, rest.outcome, first.log + rest.log)
  }

  /** The delivery went to a property whose callback was not in progress. */
  ghost predicate Outside<V>(props: map<PropKey, Prop<V>>, e: Delivery<V>, running: set<nat>) {
    e.key in props && props[e.key].onChange.Some? && props[e.key].onChange.value.id !in running
  }

  ghost predicate AllOutside<V>(props: map<PropKey, Prop<V>>, log: seq<Delivery<V>>, running: set<nat>) {
    forall i | 0 <= i < |log| :: Outside(props, log[i], running)
  }

  lemma AllOutsideAppend<V>(props: map<PropKey, Prop<V>>, a: seq<Delivery<V>>, b: seq<Delivery<V>>, running: set<nat>)
    requires AllOutside(props, a, running) && AllOutside(props, b, running)
    ensures AllOutside(props, a + b, running)
  {
    forall i | 0 <= i < |a + b| ensures Outside(props, (a + b)[i], running) {
      if i < |a| {
        assert (a + b)[i] == a[i];
      } else {
        assert (a + b)[i] == b[i - |a|];
      }
    }
  }

  /** Corrected: no write runs a callback that is already in progress. */
  lemma {:induction false} ApplyWriteGSkipsRunning<V>(props: map<PropKey, Prop<V>>, st: Store<V>, w: Write<V>, running: set<nat>, fuel: nat)
    ensures AllOutside(props, ApplyWriteG(props, st, w, running, fuel).log, running)
    decreases fuel, 1
  {
    if w.key in props {
      PropagateGSkipsRunning(props, Stored(st, w), SourceOf(w.layer), w.key, running, fuel);
    }
  }

  lemma {:induction false} PropagateGSkipsRunning<V>(props: map<PropKey, Prop<V>>, st: Store<V>, src: PropChangeSource, k: PropKey, running: set<nat>, fuel: nat)
    requires k in props
    ensures AllOutside(props, PropagateG(props, st, src, k, running, fuel).log, running)
    decreases fuel, 0
  {
    var p := props[k];
    if EffectiveOf(st, p, k) != CurOf(st, p, k) && p.onChange.Some? && p.onChange.value.id !in running && fuel > 0 {
      var d := Delta(src, EffectiveOf(st, p, k), CurOf(st, p, k), Lookup(st.usr, k), Lookup(st.sys, k));
      InvokeGSkipsRunning(props, Reconcile(props, st, k), k, p.onChange.value, d, running, fuel - 1);
    }
  }

  lemma {:induction false} InvokeGSkipsRunning<V>(props: map<PropKey, Prop<V>>, st: Store<V>, k: PropKey, cb: Callback<V>, d: Delta<V>, running: set<nat>, fuel: nat)
    requires k in props && props[k].onChange == Some(cb) && cb.id !in running
    ensures var r := InvokeG(props, st, k, cb, d, running, fuel);
      && r.log[0] == Delivery(k, d)
      && AllOutside(props, r.log[1..], running + {cb.id})
      && AllOutside(props, r.log, running)
    decreases fuel, 3
  {
    var inner := ApplyWritesG(props, st, cb.run(d).writes, running + {cb.id}, fuel);
    ApplyWritesGSkipsRunning(props, st, cb.run(d).writes, running + {cb.id}, fuel);
    var r := InvokeG(props, st, k, cb, d, running, fuel);
    assert r.log[1..] == inner.log;
    forall i | 0 <= i < |inner.log| ensures Outside(props, inner.log[i], running) {
      assert Outside(props, inner.log[i], running + {cb.id});
    }
    assert AllOutside(props, [Delivery(k, d)], running);
    AllOutsideAppend(props, [Delivery(k, d)], inner.log, running);
  }

  lemma {:induction false} ApplyWritesGSkipsRunning<V>(props: map<PropKey, Prop<V>>, st: Store<V>, ws: seq<Write<V>>, running: set<nat>, fuel: nat)
    ensures AllOutside(props, ApplyWritesG(props, st, ws, running, fuel).log, running)
    decreases fuel, 2, |ws|
  {
    if ws != [] {
      ApplyWriteGSkipsRunning(props, st, ws[0], running, fuel);
      var first := ApplyWriteG(props, st, ws[0], running, fuel);
      if first.outcome != Thrown {
        var rest := ApplyWritesG(props, first.store, ws[1..], running, fuel);
        ApplyWritesGSkipsRunning(props, first.store, ws[1..], running, fuel);
        AllOutsideAppend(props, first.log, rest.log, running);
      }
    }
  }

  /**
   * Corrected, the intended reentrancy rule: an external write that runs a
   * property's callback runs it once; nothing it causes, directly or through
   * other callbacks, runs that callback again.
   */
  lemma CorrectedRunsOncePerWrite<V>(props: map<PropKey, Prop<V>>, st: Store<V>, w: Write<V>, fuel: nat)
    requires w.key in props && props[w.key].onChange.Some?
    requires EffectiveOf(Stored(st, w), props[w.key], w.key) != CurOf(Stored(st, w), props[w.key], w.key)
    requires fuel > 0
    ensures var r := ApplyWriteG(props, st, w, {}, fuel);
      var id := props[w.key].onChange.value.id;
      && |r.log| > 0 && r.log[0].key == w.key
      && forall i | 1 <= i < |r.log| :: r.log[i].key in props && props[r.log[i].key].onChange.Some? && props[r.log[i].key].onChange.value.id != id
  {
    var p := props[w.key];
    var cb := p.onChange.value;
    var st1 := Stored(st, w);
    var d := Delta(SourceOf(w.layer), EffectiveOf(st1, p, w.key), CurOf(st1, p, w.key), Lookup(st1.usr, w.key), Lookup(st1.sys, w.key));
    assert ApplyWriteG(props, st, w, {}, fuel) == InvokeG(props, Reconcile(props, st1, w.key), w.key, cb, d, {}, fuel - 1);
    InvokeGSkipsRunning(props, Reconcile(props, st1, w.key), w.key, cb, d, {}, fuel - 1);
    var r := ApplyWriteG(props, st, w, {}, fuel);
    forall i | 1 <= i < |r.log|
      ensures r.log[i].key in props && props[r.log[i].key].onChange.Some? && props[r.log[i].key].onChange.value.id != cb.id
    {
      assert r.log[i] == r.log[1..][i - 1];
      assert Outside(props, r.log[1..][i - 1], {} + {cb.id});
    }
  }

  /** The hashes of all callbacks of the engine. */
  function CallbackIds<V>(props: map<PropKey, Prop<V>>): set<nat> {
    set k | k in props && props[k].onChange.Some? :: props[k].onChange.value.id
  }

  /** No callback of the engine ever throws by itself. */
  ghost predicate NoCallbackThrows<V(!new)>(props: map<PropKey, Prop<V>>) {
    forall k, d: Delta<V> | k in props && props[k].onChange.Some? :: !props[k].onChange.value.run(d).throws
  }

  /** A callback not yet in progress leaves room: fewer are running than there are. */
  lemma RoomForOneMore(ids: set<nat>, running: set<nat>, id: nat)
    requires running <= ids && id in ids && id !in running
    ensures |running| < |ids| && |running + {id}| == |running| + 1
  {
    assert running + {id} <= ids;
    assert |ids| == |running + {id}| + |ids - (running + {id})|;
  }

  /**
   * Corrected: a stack with room for every callback once never overflows. With
   * `running` callbacks in progress and `fuel` levels left, where the two
   * together exceed the number of callbacks, a write returns normally unless a
   * callback throws.
   */
  lemma {:induction false} ApplyWriteGReturns<V(!new)>(props: map<PropKey, Prop<V>>, st: Store<V>, w: Write<V>, running: set<nat>, fuel: nat)
    requires NoCallbackThrows(props)
    requires running <= CallbackIds(props) && |CallbackIds(props)| < fuel + |running|
    ensures ApplyWriteG(props, st, w, running, fuel).outcome == Returned
    decreases fuel, 1
  {
    if w.key in props {
      PropagateGReturns(props, Stored(st, w), SourceOf(w.layer), w.key, running, fuel);
    }
  }

  lemma {:induction false} PropagateGReturns<V(!new)>(props: map<PropKey, Prop<V>>, st: Store<V>, src: PropChangeSource, k: PropKey, running: set<nat>, fuel: nat)
    requires k in props && NoCallbackThrows(props)
    requires running <= CallbackIds(props) && |CallbackIds(props)| < fuel + |running|
    ensures PropagateG(props, st, src, k, running, fuel).outcome == Returned
    decreases fuel, 0
  {
    var p := props[k];
    if EffectiveOf(st, p, k) != CurOf(st, p, k) && p.onChange.Some? && p.onChange.value.id !in running {
      var cb := p.onChange.value;
      assert cb.id in CallbackIds(props);
      RoomForOneMore(CallbackIds(props), running, cb.id);
      var d := Delta(src, EffectiveOf(st, p, k), CurOf(st, p, k), Lookup(st.usr, k), Lookup(st.sys, k));
      assert !cb.run(d).throws;
      ApplyWritesGReturns(props, Reconcile(props, st, k), cb.run(d).writes, running + {cb.id}, fuel - 1);
    }
  }

  lemma {:induction false} ApplyWritesGReturns<V(!new)>(props: map<PropKey, Prop<V>>, st: Store<V>, ws: seq<Write<V>>, running: set<nat>, fuel: nat)
    requires NoCallbackThrows(props)
    requires running <= CallbackIds(props) && |CallbackIds(props)| < fuel + |running|
    ensures ApplyWritesG(props, st, ws, running, fuel).outcome == Returned
    decreases fuel, 2, |ws|
  {
    if ws != [] {
      ApplyWriteGReturns(props, st, ws[0], running, fuel);
      var first := ApplyWriteG(props, st, ws[0], running, fuel);
      ApplyWritesGReturns(props, first.store, ws[1..], running, fuel);
    }
  }

  /** Corrected: every write keeps every property reconciled, as the engine as written does. */
  lemma {:induction false} ApplyWriteGReconciles<V>(props: map<PropKey, Prop<V>>, st: Store<V>, w: Write<V>, running: set<nat>, fuel: nat)
    requires Reconciled(props, st)
    ensures Reconciled(props, ApplyWriteG(props, st, w, running, fuel).store)
    decreases fuel, 1
  {
    if w.key in props {
      StoredBreaksOnlyItsKey(props, st, w);
      PropagateGReconciles(props, Stored(st, w), SourceOf(w.layer), w.key, running, fuel);
    }
  }

  lemma {:induction false} PropagateGReconciles<V>(props: map<PropKey, Prop<V>>, st: Store<V>, src: PropChangeSource, k: PropKey, running: set<nat>, fuel: nat)
    requires k in props && ReconciledExcept(props, st, k)
    ensures Reconciled(props, PropagateG(props, st, src, k, running, fuel).store)
    decreases fuel, 0
  {
    var st1 := Reconcile(props, st, k);
    ReconcileRepairs(props, st, k);
    var p := props[k];
    if EffectiveOf(st, p, k) != CurOf(st, p, k) && p.onChange.Some? && p.onChange.value.id !in running && fuel > 0 {
      var cb := p.onChange.value;
      var d := Delta(src, EffectiveOf(st, p, k), CurOf(st, p, k), Lookup(st.usr, k), Lookup(st.sys, k));
      ApplyWritesGReconciles(props, st1, cb.run(d).writes, running + {cb.id}, fuel - 1);
    }
  }

  lemma {:induction false} ApplyWritesGReconciles<V>(props: map<PropKey, Prop<V>>, st: Store<V>, ws: seq<Write<V>>, running: set<nat>, fuel: nat)
    requires Reconciled(props, st)
    ensures Reconciled(props, ApplyWritesG(props, st, ws, running, fuel).store)
    decreases fuel, 2, |ws|
  {
    if ws != [] {
      ApplyWriteGReconciles(props, st, ws[0], running, fuel);
      var first := ApplyWriteG(props, st, ws[0], running, fuel);
      if first.outcome != Thrown {
        ApplyWritesGReconciles(props, first.store, ws[1..], running, fuel);
      }
    }
  }

  /** Corrected: `sys = 1` on key 0 runs `Chase` once and settles at key 0 = 2, key 1 = 1. */
  lemma ChaseSettlesCorrected(fuel: nat)
    requires fuel > 0
    ensures var r := ApplyWriteG(ChaseProps(), EmptyStore(), Write(0, SysLayer, Some(1)), {}, fuel);
      && r.outcome == Returned && |r.log| == 1
      && Lookup(r.store.sys, 0) == Some(2) && CurOf(r.store, ChaseProps()[0], 0) == 2
      && Lookup(r.store.sys, 1) == Some(1) && CurOf(r.store, ChaseProps()[1], 1) == 1
  {
    var props := ChaseProps();
    var w := Write(0, SysLayer, Some(1));
    var st0 := Stored(EmptyStore<int>(), w);
    var st1 := Reconcile(props, st0, 0);
    var d := Delta(SYS, 1, 0, None, Some(1));
    assert ApplyWriteG(props, EmptyStore(), w, {}, fuel) == InvokeG(props, st1, 0, Chase(), d, {}, fuel - 1);
    var ws := Chase().run(d).writes;
    assert ws == [Write(1, SysLayer, Some(1)), Write(0, SysLayer, Some(2))];
    var first := ApplyWriteG(props, st1, ws[0], {7}, fuel - 1);
    var s1 := Stored(st1, ws[0]);
    assert 1 in props && props[1].onChange == None;
    assert EffectiveOf(s1, props[1], 1) == 1 && CurOf(s1, props[1], 1) == 0;
    assert first == PropagateG(props, s1, SYS, 1, {7}, fuel - 1);
    assert first == Run(Reconcile(props, s1, 1), Returned, []);
    var s2 := Stored(first.store, ws[1]);
    assert Lookup(s2.cur, 0) == Some(1);
    var second := ApplyWriteG(props, first.store, ws[1], {7}, fuel - 1);
    assert EffectiveOf(s2, props[0], 0) == 2 && CurOf(s2, props[0], 0) == 1;
    assert props[0].onChange == Some(Chase()) && Chase().id in {7};
    assert second == PropagateG(props, s2, SYS, 0, {7}, fuel - 1);
    assert second == Run(Reconcile(props, s2, 0), Returned, []);
    assert ws[1..] == [ws[1]];
    assert ApplyWritesG(props, first.store, ws[1..], {7}, fuel - 1) == Run(second.store, Returned, [] + []);
    assert ApplyWritesG(props, st1, ws, {7}, fuel - 1) == Run(second.store, Returned, []);
    assert {} + {Chase().id} == {7};
    assert ApplyWriteG(props, EmptyStore(), w, {}, fuel) == Run(second.store, Returned, [Delivery(0, d)]);
    assert Lookup(second.store.sys, 0) == Some(2) && Lookup(second.store.cur, 0) == Some(2);
    assert Lookup(second.store.sys, 1) == Some(1) && Lookup(second.store.cur, 1) == Some(1);
  }
}
