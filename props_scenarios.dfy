/**
 * The scenarios of ManagedPropsTest.kt, replayed on the model of the engine:
 * each lemma starts from an engine nobody has written to and applies the same
 * writes as the test, in the same order.
 */
module PropsScenarios {
  import opened Wrappers
  import opened Props
  import opened PropsLemmas

  /** One property, key 0, with the given default and callback. */
  function Single<V>(default: V, onChange: Option<Callback<V>>): map<PropKey, Prop<V>> {
    map[0 := Prop(default, onChange)]
  }

  /** A callback that only counts its invocations: it writes nothing and returns. */
  function Counting<V>(): Callback<V> {
    Callback(0, (d: Delta<V>) => Reaction([], false))
  }

  /** The callback of test4: `sys = it.cur + 1` on its own property. */
  function Bump(): Callback<int> {
    Callback(0, (d: Delta<int>) => Reaction([Write(0, SysLayer, Some(d.cur + 1))], false))
  }

  /** test1: usr=true is applied, sys=false overrides it, sys=null restores it. */
  lemma UserThenOverrideThenRevert(fuel: nat)
    ensures var props := Single(false, None);
      var s1 := ApplyWrite(props, EmptyStore(), Write(0, UsrLayer, Some(true)), fuel).store;
      var s2 := ApplyWrite(props, s1, Write(0, SysLayer, Some(false)), fuel).store;
      var s3 := ApplyWrite(props, s2, Write(0, SysLayer, None), fuel).store;
      && CurOf(EmptyStore(), props[0], 0) == false
      && Lookup(s1.usr, 0) == Some(true) && Lookup(s1.sys, 0) == None && CurOf(s1, props[0], 0) == true
      && Lookup(s2.usr, 0) == Some(true) && Lookup(s2.sys, 0) == Some(false) && CurOf(s2, props[0], 0) == false
      && Lookup(s3.usr, 0) == Some(true) && Lookup(s3.sys, 0) == None && CurOf(s3, props[0], 0) == true
  {
  }

  /** test2: usr="C" under sys="B" is recorded but not applied until sys=null. */
  lemma UserRecordedUnderOverride(fuel: nat)
    ensures var props := Single("A", None);
      var s1 := ApplyWrite(props, EmptyStore(), Write(0, SysLayer, Some("B")), fuel).store;
      var s2 := ApplyWrite(props, s1, Write(0, UsrLayer, Some("C")), fuel).store;
      var s3 := ApplyWrite(props, s2, Write(0, SysLayer, None), fuel).store;
      && Lookup(s1.usr, 0) == None && Lookup(s1.sys, 0) == Some("B") && CurOf(s1, props[0], 0) == "B"
      && Lookup(s2.usr, 0) == Some("C") && Lookup(s2.sys, 0) == Some("B") && CurOf(s2, props[0], 0) == "B"
      && Lookup(s3.usr, 0) == Some("C") && Lookup(s3.sys, 0) == None && CurOf(s3, props[0], 0) == "C"
  {
  }

  /** test3: usr=false, usr=true, sys=true, usr=false, sys=null run the callback 0, 1, 0, 0, 1 times. */
  lemma CallbackCounts(fuel: nat)
    requires fuel > 0
    ensures var props := Single(false, Some(Counting()));
      var r1 := ApplyWrite(props, EmptyStore(), Write(0, UsrLayer, Some(false)), fuel);
      var r2 := ApplyWrite(props, r1.store, Write(0, UsrLayer, Some(true)), fuel);
      var r3 := ApplyWrite(props, r2.store, Write(0, SysLayer, Some(true)), fuel);
      var r4 := ApplyWrite(props, r3.store, Write(0, UsrLayer, Some(false)), fuel);
      var r5 := ApplyWrite(props, r4.store, Write(0, SysLayer, None), fuel);
      |r1.log| == 0 && |r2.log| == 1 && |r3.log| == 0 && |r4.log| == 0 && |r5.log| == 1
  {
    var props := Single(false, Some(Counting()));
    CountingWritesOnlyItself<bool>();
    var r1 := ExternalWrite(props, EmptyStore(), Write(0, UsrLayer, Some(false)), fuel);
    var r2 := ExternalWrite(props, r1.store, Write(0, UsrLayer, Some(true)), fuel);
    SelfWritingCallbackRunsOnce(props, r1.store, Write(0, UsrLayer, Some(true)), fuel);
    var r3 := ExternalWrite(props, r2.store, Write(0, SysLayer, Some(true)), fuel);
    var r4 := ExternalWrite(props, r3.store, Write(0, UsrLayer, Some(false)), fuel);
    var r5 := ExternalWrite(props, r4.store, Write(0, SysLayer, None), fuel);
    SelfWritingCallbackRunsOnce(props, r4.store, Write(0, SysLayer, None), fuel);
  }

  lemma CountingWritesOnlyItself<V(!new)>()
    ensures WritesOnlyItself(Counting<V>(), 0)
  {
  }

  /** A write from outside any callback: what the general lemmas say about it. */
  lemma ExternalWrite<V>(props: map<PropKey, Prop<V>>, st: Store<V>, w: Write<V>, fuel: nat) returns (r: Run<V>)
    requires Reconciled(props, st) && st.inside == None
    requires w.key in props && w.layer != CurLayer
    ensures r == ApplyWrite(props, st, w, fuel)
    ensures Reconciled(props, r.store) && r.store.inside == None
    ensures EffectiveOf(Stored(st, w), props[w.key], w.key) == EffectiveOf(st, props[w.key], w.key) ==> r == Run(Stored(st, w), Returned, [])
  {
    r := ApplyWrite(props, st, w, fuel);
    NotifyExactlyOnChange(props, st, w, fuel);
    ApplyWriteReconciles(props, st, w, fuel);
    ApplyWriteReleasesGuard(props, st, w, fuel);
  }

  /**
   * test4: with a callback that sets `sys = cur + 1` on its own property,
   * `sys = 1` ends with `sys == 2` after a single callback run, and doing it
   * again does the same.
   */
  lemma SelfIncrementRunsOnce(fuel: nat)
    requires fuel > 0
    ensures var props := Single(0, Some(Bump()));
      var r1 := ApplyWrite(props, EmptyStore(), Write(0, SysLayer, Some(1)), fuel);
      var r2 := ApplyWrite(props, r1.store, Write(0, SysLayer, Some(1)), fuel);
      && Lookup(r1.store.sys, 0) == Some(2) && CurOf(r1.store, props[0], 0) == 2 && |r1.log| == 1
      && Lookup(r2.store.sys, 0) == Some(2) && CurOf(r2.store, props[0], 0) == 2 && |r2.log| == 1
  {
    var props := Single(0, Some(Bump()));
    assert WritesOnlyItself(Bump(), 0);
    var w := Write(0, SysLayer, Some(1));
    var r1 := ExternalWrite(props, EmptyStore(), w, fuel);
    SelfWritingCallbackRunsOnce(props, EmptyStore(), w, fuel);
    var r2 := ExternalWrite(props, r1.store, w, fuel);
    SelfWritingCallbackRunsOnce(props, r1.store, w, fuel);
  }

  /** test4 on an engine object: the setter leaves `sys == 2`, `cur == 2`, and one callback run. */
  method SelfIncrementOnEngine() returns (e: ManagedProps<int>)
    ensures e.Valid() && 0 in e.props
    ensures e.Get(SysLayer, 0) == Some(2) && e.Cur(0) == 2
    ensures |e.delivered| == 1
  {
    e := new ManagedProps(Single(0, Some(Bump())), 16);
    SelfIncrementRunsOnce(16);
    var o := e.SetSys(0, Some(1));
  }
}
