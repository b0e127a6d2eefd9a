/**
 * Layered property reconciliation (`ManagedProps`, `Prop`, `Delta` in Props.kt).
 *
 * Every property has three layers: `sys` (a system override), `usr` (the user's
 * preference) and `cur` (the last effective value). Writing a layer stores the
 * value and recomputes `sys ?: usr ?: default`; when that differs from the
 * previous `cur`, `cur` is updated and the property's change callback runs once
 * with a `Delta`, unless it is suppressed by the engine's single reentrancy guard.
 *
 * The first half of this module gives the behaviour as functions on a value
 * `Store`; the class `ManagedProps` at the end performs it in place and is
 * proved to agree with those functions.
 */
module Props {
  import opened Wrappers

  /** Identity of a `Prop` handle: the key it has in the three layer maps. */
  type PropKey = nat

  /** The three `PropsRW` instances of an engine. */
  datatype Layer = CurLayer | SysLayer | UsrLayer

  /** Which layer was written when a change was propagated. */
  datatype PropChangeSource = CUR | SYS | USR

  /** The `when (this)` of `PropsRW.set`: the source named in a `Delta`. */
  function SourceOf(l: Layer): PropChangeSource {
    match l
    case CurLayer => CUR
    case SysLayer => SYS
    case UsrLayer => USR
  }

  /** The change record handed to a callback: new value, previous value and both intents. */
  datatype Delta<V> = Delta(src: PropChangeSource, cur: V, prv: V, usr: Option<V>, sys: Option<V>)

  /** A write of `value` (None is Kotlin's `null`) into one layer of one property. */
  datatype Write<V> = Write(key: PropKey, layer: Layer, value: Option<V>)

  /**
   * What a change callback does when it runs: the writes it performs, in order,
   * and whether it then throws.
   */
  datatype Reaction<V> = Reaction(writes: seq<Write<V>>, throws: bool)

  /**
   * A change callback. `id` stands for the callback object's `hashCode()`, on
   * which the engine keys its reentrancy guard.
   */
  datatype Callback<!V> = Callback(id: nat, run: Delta<V> -> Reaction<V>)

  /** What a `Prop` handle declares: its default and its optional callback. */
  datatype Prop<!V> = Prop(default: V, onChange: Option<Callback<V>>)

  /** How a write returns to its caller: normally, or by an exception. */
  datatype Outcome = Returned | Thrown

  /** One callback invocation: the property whose callback ran, and its `Delta`. */
  datatype Delivery<V> = Delivery(key: PropKey, delta: Delta<V>)

  /** The engine's state: the three layer caches and the guard `insideCallback`. */
  datatype Store<V> = Store(cur: map<PropKey, V>, usr: map<PropKey, V>, sys: map<PropKey, V>, inside: Option<nat>)

  /** The result of a write: the new state, how it returned, and the callbacks it ran. */
  datatype Run<V> = Run(store: Store<V>, outcome: Outcome, log: seq<Delivery<V>>)

  /** An engine before any write. */
  function EmptyStore<V>(): Store<V> {
    Store(map[], map[], map[], None)
  }

  /** A cache lookup: `cache[key]`, null when absent. */
  function Lookup<V>(m: map<PropKey, V>, k: PropKey): Option<V> {
    if k in m then Some(m[k]) else None
  }

  /** A cache store `cache[key] = value`; storing null reads back as absent. */
  function Put<V>(m: map<PropKey, V>, k: PropKey, v: Option<V>): (r: map<PropKey, V>)
    ensures Lookup(r, k) == v
    ensures forall q :: q != k ==> Lookup(r, q) == Lookup(m, q)
  {
    if v.Some? then m[k := v.value] else m - {k}
  }

  /** Precedence of the layers: `sys ?: usr ?: default`. */
  function Resolve<V>(sys: Option<V>, usr: Option<V>, default: V): V {
    sys.GetOr(usr.GetOr(default))
  }

  function LayerOf<V>(st: Store<V>, l: Layer): map<PropKey, V> {
    match l
    case CurLayer => st.cur
    case SysLayer => st.sys
    case UsrLayer => st.usr
  }

  /** The store after `cache[key] = value` in the layer `w.layer`; nothing else changes. */
  function Stored<V>(st: Store<V>, w: Write<V>): (r: Store<V>)
    ensures Lookup(LayerOf(r, w.layer), w.key) == w.value
    ensures forall q :: q != w.key ==> Lookup(LayerOf(r, w.layer), q) == Lookup(LayerOf(st, w.layer), q)
    ensures forall l :: l != w.layer ==> LayerOf(r, l) == LayerOf(st, l)
    ensures r.inside == st.inside
  {
    match w.layer
    case CurLayer => st.(cur := Put(st.cur, w.key, w.value))
    case SysLayer => st.(sys := Put(st.sys, w.key, w.value))
    case UsrLayer => st.(usr := Put(st.usr, w.key, w.value))
  }

  /** `Prop.cur`: the recorded current value, or the default. */
  function CurOf<V>(st: Store<V>, p: Prop<V>, k: PropKey): V {
    Lookup(st.cur, k).GetOr(p.default)
  }

  /** The effective value the layers call for. */
  function EffectiveOf<V>(st: Store<V>, p: Prop<V>, k: PropKey): V {
    Resolve(Lookup(st.sys, k), Lookup(st.usr, k), p.default)
  }

  /** The engine's invariant: every property's `cur` reads its effective value. */
  ghost predicate Reconciled<V>(props: map<PropKey, Prop<V>>, st: Store<V>) {
    forall k | k in props :: CurOf(st, props[k], k) == EffectiveOf(st, props[k], k)
  }

  /** The invariant, except perhaps at the property `k` whose layer was just written. */
  ghost predicate ReconciledExcept<V>(props: map<PropKey, Prop<V>>, st: Store<V>, k: PropKey) {
    forall q | q in props && q != k :: CurOf(st, props[q], q) == EffectiveOf(st, props[q], q)
  }

  /** `insideCallback(key)`: the guard is set and equals the hash of this property's callback. */
  predicate Guarded<V>(st: Store<V>, p: Prop<V>) {
    st.inside.Some? && p.onChange.Some? && st.inside.value == p.onChange.value.id
  }

  /** The guard value `onChangePropagated?.hashCode()`: null when there is no callback. */
  function GuardFor<V>(p: Prop<V>): Option<nat> {
    match p.onChange
    case Some(cb) => Some(cb.id)
    case None => None
  }

  /** `cur.cache[key] = c` when the effective value differs from the recorded one. */
  function Reconcile<V(==)>(props: map<PropKey, Prop<V>>, st: Store<V>, k: PropKey): (r: Store<V>)
    requires k in props
    ensures r.usr == st.usr && r.sys == st.sys && r.inside == st.inside
    ensures CurOf(r, props[k], k) == EffectiveOf(r, props[k], k)
    ensures forall q :: q != k ==> Lookup(r.cur, q) == Lookup(st.cur, q)
  {
    var c := EffectiveOf(st, props[k], k);
    if c == CurOf(st, props[k], k) then st else st.(cur := st.cur[k := c])
  }

  /** One write with no callback run: the layer store followed by the reconciliation of `cur`. */
  function Settle<V(==)>(props: map<PropKey, Prop<V>>, st: Store<V>, w: Write<V>): Store<V> {
    if w.key in props then Reconcile(props, Stored(st, w), w.key) else st
  }

  /** Several writes in order, none of them running a callback. */
  function SettleAll<V(==)>(props: map<PropKey, Prop<V>>, st: Store<V>, ws: seq<Write<V>>): Store<V>
    decreases |ws|
  {
    if ws == [] then st else SettleAll(props, Settle(props, st, ws[0]), ws[1..])
  }

  /**
   * `PropsRW.set`: store the value in its layer, then `handleChange`. A write to
   * a key that is not a handle of this engine does nothing here. `fuel` bounds
   * the nesting of callbacks, as the call stack does.
   */
  function ApplyWrite<V(==)>(props: map<PropKey, Prop<V>>, st: Store<V>, w: Write<V>, fuel: nat): Run<V>
    decreases fuel, 1
  {
    if w.key !in props then Run(st, Returned, [])
    else Propagate(props, Stored(st, w), SourceOf(w.layer), w.key, fuel)
  }

  /**
   * `handleChange`: recompute the effective value; when it differs from the
   * recorded `cur`, record it and, unless the guard names this property's
   * callback, run the callback. A property without a callback still sets the
   * guard to its (null) hash and clears it. Invoking a callback with no fuel
   * left throws, as a stack overflow would.
   */
  function Propagate<V(==)>(props: map<PropKey, Prop<V>>, st: Store<V>, src: PropChangeSource, k: PropKey, fuel: nat): Run<V>
    requires k in props
    decreases fuel, 0
  {
    var p := props[k];
    var prv := CurOf(st, p, k);
    var c := EffectiveOf(st, p, k);
    var st1 := Reconcile(props, st, k);
    if c == prv then Run(st1, Returned, [])
    else if Guarded(st1, p) then Run(st1, Returned, [])
    else match p.onChange
      case None => Run(st1.(inside := None), Returned, [])
      case Some(cb) =>
        if fuel == 0 then Run(st1.(inside := None), Thrown, [])
        else Invoke(props, st1, k, cb, Delta(src, c, prv, Lookup(st.usr, k), Lookup(st.sys, k)), fuel - 1)
  }

  /**
   * The `try`/`finally` around a callback: set the guard to the callback's hash,
   * run its writes (nested, with `fuel` left), throw if it throws, and clear the
   * guard on both paths.
   */
  function Invoke<V(==)>(props: map<PropKey, Prop<V>>, st: Store<V>, k: PropKey, cb: Callback<V>, d: Delta<V>, fuel: nat): Run<V>
    decreases fuel, 3
  {
    var r := cb.run(d);
    var inner := ApplyWrites(props, st.(inside := Some(cb.id)), r.writes, fuel);
    Run(inner.store.(inside := None), if r.throws then Thrown else inner.outcome, [Delivery(k, d)] + inner.log)
  }

  /** A callback body's writes in order; an exception from one of them abandons the rest. */
  function ApplyWrites<V(==)>(props: map<PropKey, Prop<V>>, st: Store<V>, ws: seq<Write<V>>, fuel: nat): Run<V>
    decreases fuel, 2, |ws|
  {
    if ws == [] then Run(st, Returned, [])
    else
      var first := ApplyWrite(props, st, ws[0], fuel);
      if first.outcome == Thrown then first
      else
        var rest := ApplyWrites(props, first.store, ws[1..], fuel);
        Run(rest.store, rest.outcome, first.log + rest.log)
  }

  /**
   * A `ManagedProps` engine with the `Prop` handles bound to it. The handles are
   * fixed when the engine is made; `stackDepth` is how deeply callbacks may nest.
   */
  class ManagedProps<V(==)> {
    const props: map<PropKey, Prop<V>>
    const stackDepth: nat
    var cur: map<PropKey, V>
    var usr: map<PropKey, V>
    var sys: map<PropKey, V>
    var insideCallback: Option<nat>
    /** Every callback invocation so far, in order. */
    ghost var delivered: seq<Delivery<V>>

    function Snapshot(): Store<V>
      reads this
    {
      Store(cur, usr, sys, insideCallback)
    }

    /** Between external calls: every `cur` is reconciled and no callback is running. */
    ghost predicate Valid()
      reads this
    {
      Reconciled(props, Snapshot()) && insideCallback == None
    }

    constructor (props: map<PropKey, Prop<V>>, stackDepth: nat)
      ensures this.props == props && this.stackDepth == stackDepth
      ensures Snapshot() == EmptyStore() && delivered == []
      ensures Valid()
    {
      this.props := props;
      this.stackDepth := stackDepth;
      cur, usr, sys := map[], map[], map[];
      insideCallback := None;
      delivered := [];
    }

    /** `PropsRW.get` on one of the three layers. */
    function Get(l: Layer, k: PropKey): (v: Option<V>)
      reads this
      requires k in props
      ensures Valid() && l == SysLayer && v.Some? ==> Cur(k) == v.value
      ensures Valid() && l == CurLayer ==> v.GetOr(props[k].default) == Cur(k)
    {
      Lookup(LayerOf(Snapshot(), l), k)
    }

    /** `Prop.cur`: the recorded value or the default; between calls `sys ?: usr ?: default`. */
    function Cur(k: PropKey): (v: V)
      reads this
      requires k in props
      ensures Valid() ==> v == Resolve(Lookup(sys, k), Lookup(usr, k), props[k].default)
    {
      CurOf(Snapshot(), props[k], k)
    }

    /** The `Prop.sys` setter, called from outside any callback. */
    method SetSys(k: PropKey, value: Option<V>) returns (o: Outcome)
      requires Valid() && k in props
      modifies this
      ensures Valid()
      ensures var r := ApplyWrite(props, old(Snapshot()), Write(k, SysLayer, value), stackDepth);
        Snapshot() == r.store && o == r.outcome && delivered == old(delivered) + r.log
    {
      ApplyWriteReconciles(props, Snapshot(), Write(k, SysLayer, value), stackDepth);
      ApplyWriteReleasesGuard(props, Snapshot(), Write(k, SysLayer, value), stackDepth);
      o := Set(Write(k, SysLayer, value), stackDepth);
    }

    /** The `Prop.usr` setter, called from outside any callback. */
    method SetUsr(k: PropKey, value: Option<V>) returns (o: Outcome)
      requires Valid() && k in props
      modifies this
      ensures Valid()
      ensures var r := ApplyWrite(props, old(Snapshot()), Write(k, UsrLayer, value), stackDepth);
        Snapshot() == r.store && o == r.outcome && delivered == old(delivered) + r.log
    {
      ApplyWriteReconciles(props, Snapshot(), Write(k, UsrLayer, value), stackDepth);
      ApplyWriteReleasesGuard(props, Snapshot(), Write(k, UsrLayer, value), stackDepth);
      o := Set(Write(k, UsrLayer, value), stackDepth);
    }

    /** `PropsRW.set`, also when called from inside a running callback. */
    method Set(w: Write<V>, fuel: nat) returns (o: Outcome)
      modifies this
      decreases fuel, 1
      ensures var r := ApplyWrite(props, old(Snapshot()), w, fuel);
        Snapshot() == r.store && o == r.outcome && delivered == old(delivered) + r.log
    {
      if w.key !in props {
        return Returned;
      }
      match w.layer {
        case CurLayer => cur := Put(cur, w.key, w.value);
        case SysLayer => sys := Put(sys, w.key, w.value);
        case UsrLayer => usr := Put(usr, w.key, w.value);
      }
      assert Snapshot() == Stored(old(Snapshot()), w);
      o := HandleChange(SourceOf(w.layer), w.key, fuel);
    }

    /** `handleChange`: reconcile `cur`, then run the callback unless the guard holds it off. */
    method HandleChange(src: PropChangeSource, k: PropKey, fuel: nat) returns (o: Outcome)
      requires k in props
      modifies this
      decreases fuel, 0
      ensures var r := Propagate(props, old(Snapshot()), src, k, fuel);
        Snapshot() == r.store && o == r.outcome && delivered == old(delivered) + r.log
    {
      var p := props[k];
      var prv := Lookup(cur, k).GetOr(p.default);
      var u := Lookup(usr, k);
      var s := Lookup(sys, k);
      var c := Resolve(s, u, p.default);
      if c == prv {
        return Returned;
      }
      cur := cur[k := c];
      if insideCallback.Some? && insideCallback == GuardFor(p) {
        return Returned;
      }
      match p.onChange {
        case None =>
          insideCallback := None;
          o := Returned;
        case Some(cb) =>
          if fuel == 0 {
            insideCallback := None;
            o := Thrown;
          } else {
            o := InvokeCallback(k, cb, Delta(src, c, prv, u, s), fuel - 1);
          }
      }
    }

    /** The guarded callback invocation, with the guard cleared in `finally`. */
    method InvokeCallback(k: PropKey, cb: Callback<V>, d: Delta<V>, fuel: nat) returns (o: Outcome)
      modifies this
      decreases fuel, 3
      ensures var r := Invoke(props, old(Snapshot()), k, cb, d, fuel);
        Snapshot() == r.store && o == r.outcome && delivered == old(delivered) + r.log
    {
      insideCallback := Some(cb.id);
      delivered := delivered + [Delivery(k, d)];
      var r := cb.run(d);
      o := RunWrites(r.writes, fuel);
      if r.throws {
        o := Thrown;
      }
      insideCallback := None;
    }

    /** A callback body performing its writes in order; an exception abandons the rest. */
    method RunWrites(ws: seq<Write<V>>, fuel: nat) returns (o: Outcome)
      modifies this
      decreases fuel, 2, |ws|
      ensures var r := ApplyWrites(props, old(Snapshot()), ws, fuel);
        Snapshot() == r.store && o == r.outcome && delivered == old(delivered) + r.log
    {
      if ws == [] {
        return Returned;
      }
      o := Set(ws[0], fuel);
      if o == Returned {
        o := RunWrites(ws[1..], fuel);
      }
    }
  }

  /** Writing keeps every property reconciled, whatever the callbacks do. */
  lemma {:induction false} ApplyWriteReconciles<V>(props: map<PropKey, Prop<V>>, st: Store<V>, w: Write<V>, fuel: nat)
    requires Reconciled(props, st)
    ensures Reconciled(props, ApplyWrite(props, st, w, fuel).store)
    decreases fuel, 1
  {
    if w.key in props {
      StoredBreaksOnlyItsKey(props, st, w);
      PropagateReconciles(props, Stored(st, w), SourceOf(w.layer), w.key, fuel);
    }
  }

  lemma StoredBreaksOnlyItsKey<V>(props: map<PropKey, Prop<V>>, st: Store<V>, w: Write<V>)
    requires Reconciled(props, st)
    ensures ReconciledExcept(props, Stored(st, w), w.key)
  {
    var st1 := Stored(st, w);
    forall q | q in props && q != w.key
      ensures CurOf(st1, props[q], q) == EffectiveOf(st1, props[q], q)
    {
      assert Lookup(st1.cur, q) == Lookup(st.cur, q);
      assert Lookup(st1.usr, q) == Lookup(st.usr, q);
      assert Lookup(st1.sys, q) == Lookup(st.sys, q);
    }
  }

  /** `handleChange` repairs the one property whose layer was written, and the callbacks keep the rest. */
  lemma {:induction false} PropagateReconciles<V>(props: map<PropKey, Prop<V>>, st: Store<V>, src: PropChangeSource, k: PropKey, fuel: nat)
    requires k in props && ReconciledExcept(props, st, k)
    ensures Reconciled(props, Propagate(props, st, src, k, fuel).store)
    decreases fuel, 0
  {
    var st1 := Reconcile(props, st, k);
    ReconcileRepairs(props, st, k);
    var p := props[k];
    if EffectiveOf(st, p, k) != CurOf(st, p, k) && !Guarded(st1, p) && p.onChange.Some? && fuel > 0 {
      var cb := p.onChange.value;
      var d := Delta(src, EffectiveOf(st, p, k), CurOf(st, p, k), Lookup(st.usr, k), Lookup(st.sys, k));
      ApplyWritesReconciles(props, st1.(inside := Some(cb.id)), cb.run(d).writes, fuel - 1);
      assert Invoke(props, st1, k, cb, d, fuel - 1).store == ApplyWrites(props, st1.(inside := Some(cb.id)), cb.run(d).writes, fuel - 1).store.(inside := None);
    }
  }

  lemma ReconcileRepairs<V>(props: map<PropKey, Prop<V>>, st: Store<V>, k: PropKey)
    requires k in props && ReconciledExcept(props, st, k)
    ensures Reconciled(props, Reconcile(props, st, k))
  {
    var st1 := Reconcile(props, st, k);
    forall q | q in props
      ensures CurOf(st1, props[q], q) == EffectiveOf(st1, props[q], q)
    {
      if q != k {
        assert Lookup(st1.cur, q) == Lookup(st.cur, q);
      }
    }
  }

  lemma {:induction false} ApplyWritesReconciles<V>(props: map<PropKey, Prop<V>>, st: Store<V>, ws: seq<Write<V>>, fuel: nat)
    requires Reconciled(props, st)
    ensures Reconciled(props, ApplyWrites(props, st, ws, fuel).store)
    decreases fuel, 2, |ws|
  {
    if ws != [] {
      ApplyWriteReconciles(props, st, ws[0], fuel);
      var first := ApplyWrite(props, st, ws[0], fuel);
      if first.outcome != Thrown {
        ApplyWritesReconciles(props, first.store, ws[1..], fuel);
      }
    }
  }

  /**
   * The guard is released by every write that set it, normal or exceptional:
   * afterwards it is either as before or cleared.
   */
  lemma ApplyWriteReleasesGuard<V>(props: map<PropKey, Prop<V>>, st: Store<V>, w: Write<V>, fuel: nat)
    ensures var r := ApplyWrite(props, st, w, fuel); r.store.inside == st.inside || r.store.inside == None
  {
    if w.key in props {
      var st1 := Stored(st, w);
      var p := props[w.key];
      if EffectiveOf(st1, p, w.key) != CurOf(st1, p, w.key) && !Guarded(Reconcile(props, st1, w.key), p) && p.onChange.Some? && fuel > 0 {
        var d := Delta(SourceOf(w.layer), EffectiveOf(st1, p, w.key), CurOf(st1, p, w.key), Lookup(st1.usr, w.key), Lookup(st1.sys, w.key));
        assert Invoke(props, Reconcile(props, st1, w.key), w.key, p.onChange.value, d, fuel - 1).store.inside == None;
      }
    }
  }
}
