/**
 * What the reconciliation engine promises, proved about the functions that
 * specify it (`ApplyWrite`, `Propagate`, `Invoke`, `ApplyWrites` in module Props).
 */
module PropsLemmas {
  import opened Wrappers
  import opened Props

  /** Nothing has been written: every property reads its default and has no intents. */
  lemma UnwrittenReadsDefault<V>(props: map<PropKey, Prop<V>>, k: PropKey)
    requires k in props
    ensures Reconciled(props, EmptyStore<V>())
    ensures CurOf(EmptyStore<V>(), props[k], k) == props[k].default
    ensures Lookup(EmptyStore<V>().usr, k) == None && Lookup(EmptyStore<V>().sys, k) == None
  {
  }

  /** The three layers agree at `q` in two states. */
  ghost predicate SameAt<V>(st: Store<V>, st': Store<V>, q: PropKey) {
    Lookup(st'.cur, q) == Lookup(st.cur, q) && Lookup(st'.usr, q) == Lookup(st.usr, q) && Lookup(st'.sys, q) == Lookup(st.sys, q)
  }

  /**
   * A write that runs no callback is the plain layer store plus the
   * reconciliation of `cur`: the written value reads back from its layer even
   * when `cur` does not move, `cur` is `sys ?: usr ?: default`, and every other
   * property is left as it was.
   */
  lemma QuietWriteIsRecorded<V>(props: map<PropKey, Prop<V>>, st: Store<V>, w: Write<V>, fuel: nat)
    requires w.key in props && w.layer != CurLayer
    requires ApplyWrite(props, st, w, fuel).log == []
    ensures var r := ApplyWrite(props, st, w, fuel).store;
      && Lookup(LayerOf(r, w.layer), w.key) == w.value
      && CurOf(r, props[w.key], w.key) == EffectiveOf(r, props[w.key], w.key)
      && (forall q :: q != w.key ==> SameAt(st, r, q))
  {
    var st1 := Stored(st, w);
    var p := props[w.key];
    var stR := Reconcile(props, st1, w.key);
    var run := ApplyWrite(props, st, w, fuel);
    assert run == Propagate(props, st1, SourceOf(w.layer), w.key, fuel);
    if EffectiveOf(st1, p, w.key) != CurOf(st1, p, w.key) && !Guarded(stR, p) && p.onChange.Some? && fuel > 0 {
      assert false;
    }
    assert run.store.cur == stR.cur && run.store.usr == st1.usr && run.store.sys == st1.sys;
  }

  /**
   * Notification is exact. From a reconciled state a user or system write runs
   * the callback if and only if it changes the effective value, the property has
   * a callback, the guard does not hold it off and the stack has room; the first
   * delivery then names the written layer, the new and the previous effective
   * value. A write that does not change the effective value only records itself.
   */
  lemma NotifyExactlyOnChange<V>(props: map<PropKey, Prop<V>>, st: Store<V>, w: Write<V>, fuel: nat)
    requires Reconciled(props, st)
    requires w.key in props && w.layer != CurLayer
    ensures var p := props[w.key];
      var st1 := Stored(st, w);
      var before := EffectiveOf(st, p, w.key);
      var after := EffectiveOf(st1, p, w.key);
      var r := ApplyWrite(props, st, w, fuel);
      && (r.log != [] <==> after != before && p.onChange.Some? && !Guarded(st, p) && fuel > 0)
      && (r.log != [] ==> r.log[0] == Delivery(w.key, Delta(SourceOf(w.layer), after, before, Lookup(st1.usr, w.key), Lookup(st1.sys, w.key))))
      && (after == before ==> r == Run(st1, Returned, []))
  {
    var p := props[w.key];
    var st1 := Stored(st, w);
    assert Lookup(st1.cur, w.key) == Lookup(st.cur, w.key);
    assert CurOf(st, p, w.key) == EffectiveOf(st, p, w.key);
    var before := EffectiveOf(st, p, w.key);
    var after := EffectiveOf(st1, p, w.key);
    var stR := Reconcile(props, st1, w.key);
    assert Guarded(stR, p) == Guarded(st, p);
    if after != before && p.onChange.Some? && !Guarded(st, p) && fuel > 0 {
      var d := Delta(SourceOf(w.layer), after, before, Lookup(st1.usr, w.key), Lookup(st1.sys, w.key));
      assert ApplyWrite(props, st, w, fuel) == Invoke(props, stR, w.key, p.onChange.value, d, fuel - 1);
    }
  }

  /** `Delta.src` names the layer that was written: SYS for `sys`, USR for `usr`. */
  lemma DeltaNamesWrittenLayer<V>(props: map<PropKey, Prop<V>>, st: Store<V>, w: Write<V>, fuel: nat)
    requires Reconciled(props, st)
    requires w.key in props && w.layer != CurLayer
    requires ApplyWrite(props, st, w, fuel).log != []
    ensures var d := ApplyWrite(props, st, w, fuel).log[0].delta;
      (w.layer == SysLayer ==> d.src == SYS) && (w.layer == UsrLayer ==> d.src == USR)
  {
    NotifyExactlyOnChange(props, st, w, fuel);
  }

  /** Every write in `ws` targets the property `k`. */
  ghost predicate AllTarget<V>(ws: seq<Write<V>>, k: PropKey) {
    forall i | 0 <= i < |ws| :: ws[i].key == k
  }

  /** The callback `cb` only ever writes its own property `k`. */
  ghost predicate WritesOnlyItself<V(!new)>(cb: Callback<V>, k: PropKey) {
    forall d: Delta<V> :: AllTarget(cb.run(d).writes, k)
  }

  lemma SettleKeepsGuard<V>(props: map<PropKey, Prop<V>>, st: Store<V>, ws: seq<Write<V>>)
    ensures SettleAll(props, st, ws).inside == st.inside
    decreases |ws|
  {
    if ws != [] {
      SettleKeepsGuard(props, Settle(props, st, ws[0]), ws[1..]);
    }
  }

  /**
   * While the callback of `k` is running, writes to `k` update the layers and
   * `cur` one after the other but never re-enter the callback, and never fail.
   */
  lemma {:induction false} GuardedSelfWritesSettle<V>(props: map<PropKey, Prop<V>>, st: Store<V>, k: PropKey, cb: Callback<V>, ws: seq<Write<V>>, fuel: nat)
    requires k in props && props[k].onChange == Some(cb)
    requires st.inside == Some(cb.id)
    requires AllTarget(ws, k)
    ensures ApplyWrites(props, st, ws, fuel) == Run(SettleAll(props, st, ws), Returned, [])
    decreases |ws|
  {
    if ws != [] {
      var first := ApplyWrite(props, st, ws[0], fuel);
      assert ws[0].key == k;
      var st1 := Stored(st, ws[0]);
      assert Guarded(Reconcile(props, st1, k), props[k]);
      assert first == Propagate(props, st1, SourceOf(ws[0].layer), k, fuel);
      assert Settle(props, st, ws[0]) == Reconcile(props, st1, k);
      assert first == Run(Settle(props, st, ws[0]), Returned, []);
      assert AllTarget(ws[1..], k) by {
        forall i | 0 <= i < |ws[1..]| ensures ws[1..][i].key == k {
          assert ws[1..][i] == ws[i + 1];
        }
      }
      GuardedSelfWritesSettle(props, first.store, k, cb, ws[1..], fuel);
    }
  }

  /**
   * The reentrancy rule. When a property's callback writes only that property,
   * an external write that changes the value runs the callback exactly once: the
   * callback's own writes land in the layers and in `cur`, in order, without
   * running it again, and the guard is cleared afterwards, so the next external
   * write notifies again.
   */
  lemma SelfWritingCallbackRunsOnce<V(!new)>(props: map<PropKey, Prop<V>>, st: Store<V>, w: Write<V>, fuel: nat)
    requires Reconciled(props, st) && st.inside == None
    requires w.key in props && w.layer != CurLayer && props[w.key].onChange.Some?
    requires WritesOnlyItself(props[w.key].onChange.value, w.key)
    requires EffectiveOf(Stored(st, w), props[w.key], w.key) != EffectiveOf(st, props[w.key], w.key)
    requires fuel > 0
    ensures var p := props[w.key];
      var cb := p.onChange.value;
      var st1 := Reconcile(props, Stored(st, w), w.key);
      var d := Delta(SourceOf(w.layer), EffectiveOf(st1, p, w.key), EffectiveOf(st, p, w.key), Lookup(st1.usr, w.key), Lookup(st1.sys, w.key));
      var reaction := cb.run(d);
      var r := ApplyWrite(props, st, w, fuel);
      && r.log == [Delivery(w.key, d)]
      && r.store == SettleAll(props, st1, reaction.writes).(inside := None)
      && r.outcome == (if reaction.throws then Thrown else Returned)
  {
    var p := props[w.key];
    var cb := p.onChange.value;
    var st0 := Stored(st, w);
    var st1 := Reconcile(props, st0, w.key);
    assert Lookup(st0.cur, w.key) == Lookup(st.cur, w.key);
    var d := Delta(SourceOf(w.layer), EffectiveOf(st1, p, w.key), EffectiveOf(st, p, w.key), Lookup(st1.usr, w.key), Lookup(st1.sys, w.key));
    assert ApplyWrite(props, st, w, fuel) == Invoke(props, st1, w.key, cb, d, fuel - 1);
    var reaction := cb.run(d);
    GuardedSelfWritesSettle(props, st1.(inside := Some(cb.id)), w.key, cb, reaction.writes, fuel - 1);
    SettleKeepsGuard(props, st1.(inside := Some(cb.id)), reaction.writes);
    SettleIgnoresGuard(props, st1, Some(cb.id), reaction.writes);
  }

  /** Settling does not look at the guard. */
  lemma {:induction false} SettleIgnoresGuard<V>(props: map<PropKey, Prop<V>>, st: Store<V>, g: Option<nat>, ws: seq<Write<V>>)
    ensures SettleAll(props, st.(inside := g), ws) == SettleAll(props, st, ws).(inside := g)
    decreases |ws|
  {
    if ws != [] {
      assert Settle(props, st.(inside := g), ws[0]) == Settle(props, st, ws[0]).(inside := g);
      SettleIgnoresGuard(props, Settle(props, st, ws[0]), g, ws[1..]);
    }
  }

  /** No callback of any property ever writes the property `q`. */
  ghost predicate NeverWrittenBy<V(!new)>(props: map<PropKey, Prop<V>>, q: PropKey) {
    forall k, d: Delta<V>, i | k in props && props[k].onChange.Some? && 0 <= i < |props[k].onChange.value.run(d).writes|
      :: props[k].onChange.value.run(d).writes[i].key != q
  }

  /**
   * A write to one property leaves another alone: layers and `cur` of a property
   * `q` that is neither written directly nor by any callback do not change.
   */
  lemma {:induction false} ApplyWriteFrame<V(!new)>(props: map<PropKey, Prop<V>>, st: Store<V>, w: Write<V>, fuel: nat, q: PropKey)
    requires w.key != q && NeverWrittenBy(props, q)
    ensures SameAt(st, ApplyWrite(props, st, w, fuel).store, q)
    decreases fuel, 1
  {
    if w.key in props {
      var st1 := Stored(st, w);
      assert SameAt(st, st1, q);
      PropagateFrame(props, st1, SourceOf(w.layer), w.key, fuel, q);
    }
  }

  lemma {:induction false} PropagateFrame<V(!new)>(props: map<PropKey, Prop<V>>, st: Store<V>, src: PropChangeSource, k: PropKey, fuel: nat, q: PropKey)
    requires k in props && k != q && NeverWrittenBy(props, q)
    ensures SameAt(st, Propagate(props, st, src, k, fuel).store, q)
    decreases fuel, 0
  {
    var p := props[k];
    var st1 := Reconcile(props, st, k);
    assert SameAt(st, st1, q);
    if EffectiveOf(st, p, k) != CurOf(st, p, k) && !Guarded(st1, p) && p.onChange.Some? && fuel > 0 {
      var d := Delta(src, EffectiveOf(st, p, k), CurOf(st, p, k), Lookup(st.usr, k), Lookup(st.sys, k));
      InvokeFrame(props, st1, k, p.onChange.value, d, fuel - 1, q);
    }
  }

  lemma {:induction false} InvokeFrame<V(!new)>(props: map<PropKey, Prop<V>>, st: Store<V>, k: PropKey, cb: Callback<V>, d: Delta<V>, fuel: nat, q: PropKey)
    requires k in props && props[k].onChange == Some(cb) && NeverWrittenBy(props, q)
    ensures SameAt(st, Invoke(props, st, k, cb, d, fuel).store, q)
    decreases fuel, 3
  {
    var ws := cb.run(d).writes;
    assert forall i | 0 <= i < |ws| :: ws[i].key != q by {
      forall i | 0 <= i < |ws| ensures ws[i].key != q {
        assert props[k].onChange.value.run(d).writes[i].key != q;
      }
    }
    ApplyWritesFrame(props, st.(inside := Some(cb.id)), ws, fuel, q);
  }

  lemma {:induction false} ApplyWritesFrame<V(!new)>(props: map<PropKey, Prop<V>>, st: Store<V>, ws: seq<Write<V>>, fuel: nat, q: PropKey)
    requires NeverWrittenBy(props, q)
    requires forall i | 0 <= i < |ws| :: ws[i].key != q
    ensures SameAt(st, ApplyWrites(props, st, ws, fuel).store, q)
    decreases fuel, 2, |ws|
  {
    if ws != [] {
      ApplyWriteFrame(props, st, ws[0], fuel, q);
      var first := ApplyWrite(props, st, ws[0], fuel);
      if first.outcome != Thrown {
        assert forall i | 0 <= i < |ws[1..]| :: ws[1..][i].key != q by {
          forall i | 0 <= i < |ws[1..]| ensures ws[1..][i].key != q {
            assert ws[1..][i] == ws[i + 1];
          }
        }
        ApplyWritesFrame(props, first.store, ws[1..], fuel, q);
      }
    }
  }
}
