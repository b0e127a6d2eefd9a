# atonyx core: managed properties and the surface lifecycle

This project models, in Dafny, two pieces of the atonyx Android library and proves what they promise.

**`ManagedProps`** (Props.kt) is a reconciliation engine for three-layer properties:
- every `Prop` has a user intent `usr`, a system override `sys` and an applied value `cur`;
- after every write, `cur` becomes `sys ?: usr ?: default`;
- a property's `onChangePropagated` callback runs only when the applied value changes, and then unless the guard holds it off or the stack is exhausted;
- while a callback runs, a single guard slot holding the callback's hash keeps that callback from running again when it writes its own property, but only until one of its writes changes another property: that change overwrites the slot, and the `finally` clears it instead of restoring it (see "## Findings").

**`__SurfaceManager`** (SurfaceManager.kt) is a lifecycle controller:
- it watches an activity and a surface view;
- it moves between started, enabled, disabled and shut down;
- it calls its owner's `onStartup`, `onEnabled`, `onDisabled` and `onShutdown` hooks on the way;
- it debounces layout bursts through one pending `MSG_READY` message per handler.

## Files

- `wrappers.dfy` (module `Wrappers`): `Option`, with `GetOr` for Kotlin's `?:`.
- `props.dfy` (module `Props`): the engine's data model, its specification functions and the `ManagedProps` class.
  - The specification functions are `ApplyWrite`, `Propagate`, `Invoke` and `ApplyWrites`. They are mutually recursive.
  - The class's methods are proved equal to those functions, next to the invariant lemmas.
- `props_lemmas.dfy` (module `PropsLemmas`): the engine's promises, proved about the specification functions.
- `props_scenarios.dfy` (module `PropsScenarios`): the four ManagedPropsTest.kt scenarios, replayed on the model.
- `props_reentry.dfy` (module `PropsReentry`): the re-entry the single guard slot allows, and a corrected engine whose guard is the set of running callbacks.
- `surface_manager.dfy` (module `SurfaceLifecycle`): the `SurfaceManager` class and three lifecycle scenarios.

## How the model is built

- **Properties and their identity.** A `Prop` is identified by a key, `PropKey`, into a registry `map<PropKey, Prop<V>>`. The registry holds each property's default and optional callback. The three `PropsRW` caches are maps from keys to values.
- **Callbacks.** A callback is the `Callback` datatype:
  - an `id`, which stands for `hashCode()`;
  - a function from the `Delta` it receives to a `Reaction`;
  - the reaction is the writes the body performs, in order, and whether it then throws.
- **Nested writes and stack depth.** A write made inside a callback is evaluated by the same functions, one level deeper. A `fuel` bound stands for the thread's stack: a callback invoked with no stack left throws, which stands for `StackOverflowError`.
- **The `try`/`finally` guard.** The guard is cleared on both the normal and the exceptional path.
- **Exceptions.** An exception that escapes a callback ends the write with `Thrown`. The enclosing callback's remaining writes are abandoned.
- **The callback log.** The class keeps a ghost log, `delivered`, of every callback run with its `Delta`.
- **The surface controller's environment.**
  - Each event receives a `Host`: whether the activity and the surface behind the weak references are still alive, and the surface's size.
  - Handlers are numbered by generation.
  - The main looper's queue of `MSG_READY` messages is a FIFO sequence of handler numbers. The looper delivering one message is the step `DeliverReady`.

## Model

| member | source | states |
|---|---|---|
| Props.Put | src/main/java/com/ath/atonyx/Props.kt:97-100 | Storing a value, or null, in a `PropsRW` cache makes the key read back exactly that value. Every other key is unchanged. |
| Props.Stored | src/main/java/com/ath/atonyx/Props.kt:97-100 | A write changes only the layer it names, at its key. The two other layers and the guard are untouched. |
| Props.Reconcile | src/main/java/com/ath/atonyx/Props.kt:126-131 | Afterwards `cur` of the key equals `sys ?: usr ?: default`. `usr`, `sys`, the guard and every other key's `cur` are unchanged. |
| Props.ManagedProps.constructor | src/main/java/com/ath/atonyx/Props.kt:113-116 | A new engine has empty caches, no guard and no callback runs, and is reconciled. |
| Props.ManagedProps.Cur | src/main/java/com/ath/atonyx/Props.kt:18-19 | In a reconciled engine, `Prop.cur` is `sys ?: usr ?: default`. |
| Props.ManagedProps.Get | src/main/java/com/ath/atonyx/Props.kt:91-95 | A set system override is the applied value. A missing `cur` entry means the applied value is the default. |
| Props.ManagedProps.SetSys | src/main/java/com/ath/atonyx/Props.kt:21-25 | The `sys` setter's new state, outcome and callback runs are those of `ApplyWrite` on the old state, and the engine stays reconciled with the guard cleared. |
| Props.ManagedProps.SetUsr | src/main/java/com/ath/atonyx/Props.kt:27-31 | The `usr` setter's new state, outcome and callback runs are those of `ApplyWrite` on the old state, and the engine stays reconciled with the guard cleared. |
| Props.ManagedProps.Set | src/main/java/com/ath/atonyx/Props.kt:97-109 | `PropsRW.set` stores the value, then handles the change with the layer's `PropChangeSource`. The result is exactly `ApplyWrite`, also when called from inside a callback. |
| Props.ManagedProps.HandleChange | src/main/java/com/ath/atonyx/Props.kt:124-142 | `handleChange` gives exactly `Propagate`: no effect when the effective value equals the previous one; otherwise `cur` is updated; the callback runs unless the guard holds it off. |
| Props.ManagedProps.InvokeCallback | src/main/java/com/ath/atonyx/Props.kt:132-138 | The guard is set to the callback's hash and one delivery is logged. The body's writes run nested. An exception is rethrown. The guard is cleared on both paths. The result is exactly `Invoke`. |
| Props.ManagedProps.RunWrites | src/main/java/com/ath/atonyx/Props.kt:135 | The callback body's writes run in order and stop at the first one that throws. The result is exactly `ApplyWrites`. |
| Props.ApplyWriteReconciles | src/main/java/com/ath/atonyx/Props.kt:126-131 | From a reconciled state, any write leaves every property reconciled, whatever the callbacks write, nest or throw, with stack overflow as modelled (on entry to a callback). |
| Props.PropagateReconciles | src/main/java/com/ath/atonyx/Props.kt:124-142 | If only the changed key is out of date, handling the change reconciles every property. |
| Props.ApplyWritesReconciles | src/main/java/com/ath/atonyx/Props.kt:135 | A callback's sequence of writes keeps every property reconciled. |
| Props.StoredBreaksOnlyItsKey | src/main/java/com/ath/atonyx/Props.kt:100 | Storing a value can put only its own key out of date. |
| Props.ReconcileRepairs | src/main/java/com/ath/atonyx/Props.kt:129-131 | Writing the effective value to `cur` repairs the one key that was out of date. |
| Props.ApplyWriteReleasesGuard | src/main/java/com/ath/atonyx/Props.kt:133-138 | After a write, the guard is either what it was before or cleared; a write never leaves a guard of its own behind. |
| PropsLemmas.UnwrittenReadsDefault | src/main/java/com/ath/atonyx/Props.kt:18-31 | A never-written property reads its default and has no user or system value. The empty engine is reconciled. |
| PropsLemmas.QuietWriteIsRecorded | src/main/java/com/ath/atonyx/Props.kt:97-142 | A write that runs no callback still records its value in its layer, even when `cur` does not move. `cur` is `sys ?: usr ?: default`, and every other property is unchanged. |
| PropsLemmas.NotifyExactlyOnChange | src/main/java/com/ath/atonyx/Props.kt:124-142 | See the three points below this table. |
| PropsLemmas.DeltaNamesWrittenLayer | src/main/java/com/ath/atonyx/Props.kt:101-106 | A `Delta` caused by a `sys` write has source SYS; one caused by a `usr` write has source USR. |
| PropsLemmas.SettleKeepsGuard | src/main/java/com/ath/atonyx/Props.kt:126-131 | Storing and reconciling without callbacks never touches the guard. |
| PropsLemmas.GuardedSelfWritesSettle | src/main/java/com/ath/atonyx/Props.kt:118-122 | While a property's callback runs and every one of its writes targets its own property, those writes update the layers and `cur` in order, never re-enter the callback and never throw. |
| PropsLemmas.SelfWritingCallbackRunsOnce | src/main/java/com/ath/atonyx/Props.kt:118-138 | A callback every one of whose writes targets its own property runs exactly once per external change, its writes all land, and the guard is cleared afterwards. Its outcome is its own throw. |
| PropsLemmas.SettleIgnoresGuard | src/main/java/com/ath/atonyx/Props.kt:126-131 | Storing and reconciling give the same layers whatever the guard holds. |
| PropsLemmas.ApplyWriteFrame | src/main/java/com/ath/atonyx/Props.kt:97-109 | A write to one property leaves another property's layers and `cur` unchanged when no callback ever writes that other property. |
| PropsLemmas.PropagateFrame | src/main/java/com/ath/atonyx/Props.kt:124-142 | The same frame property for handling a change. |
| PropsLemmas.InvokeFrame | src/main/java/com/ath/atonyx/Props.kt:132-138 | The same frame property for a callback run. |
| PropsLemmas.ApplyWritesFrame | src/main/java/com/ath/atonyx/Props.kt:135 | The same frame property for a callback body's writes. |
| PropsScenarios.UserThenOverrideThenRevert | src/test/java/com/ath/atonyx/ManagedPropsTest.kt:14-49 | test1 in order: default `false`; `usr = true` applies; `sys = false` overrides; `sys = null` reverts to the user value. |
| PropsScenarios.UserRecordedUnderOverride | src/test/java/com/ath/atonyx/ManagedPropsTest.kt:56-88 | test2 in order: `sys = "B"` applies; `usr = "C"` is recorded but not applied; `sys = null` applies `"C"`. |
| PropsScenarios.CallbackCounts | src/test/java/com/ath/atonyx/ManagedPropsTest.kt:93-130 | test3: for any stack with room for one callback, the five writes run the counting callback 0, 1, 0, 0 and 1 times. |
| PropsScenarios.SelfIncrementRunsOnce | src/test/java/com/ath/atonyx/ManagedPropsTest.kt:133-158 | test4: a callback setting `sys = cur + 1` on its own property ends with `sys == 2` and `cur == 2` after one run, twice in a row. |
| PropsScenarios.ExternalWrite | src/main/java/com/ath/atonyx/Props.kt:21-31 | A write from outside any callback keeps the state reconciled with no guard. If it does not change the effective value, it only records itself. |
| PropsScenarios.SelfIncrementOnEngine | src/test/java/com/ath/atonyx/ManagedPropsTest.kt:137-150 | test4 on a `ManagedProps` object through the `sys` setter: `sys == 2`, `cur == 2`, one callback run. |
| PropsReentry.ChaseNests | src/main/java/com/ath/atonyx/Props.kt:124-142 | As written: with key 0's `sys` at `n` and key 1 at `n - 1`, handling the change nests key 0's callback once per stack level, only key 0's callback runs, and the write ends in stack overflow, for every stack depth. |
| PropsReentry.ChaseOverflowsAsWritten | src/main/java/com/ath/atonyx/Props.kt:132-138 | As written: `sys = 1` on key 0, whose callback writes key 1 then its own property, re-enters that callback at every level and overflows the stack, whatever its depth. |
| PropsReentry.ApplyWriteGSkipsRunning | src/main/java/com/ath/atonyx/Props.kt:118-122 | Corrected: a write never runs a callback that is already in progress. |
| PropsReentry.PropagateGSkipsRunning | src/main/java/com/ath/atonyx/Props.kt:124-142 | Corrected: handling a change never runs a callback that is already in progress. |
| PropsReentry.InvokeGSkipsRunning | src/main/java/com/ath/atonyx/Props.kt:132-138 | Corrected: a callback run logs its own delivery first; nothing nested inside it runs that callback or any callback outside it. |
| PropsReentry.ApplyWritesGSkipsRunning | src/main/java/com/ath/atonyx/Props.kt:135 | Corrected: a callback body's writes never run a callback in progress. |
| PropsReentry.CorrectedRunsOncePerWrite | src/test/java/com/ath/atonyx/ManagedPropsTest.kt:132-158 | Corrected: an external write that changes a property runs its callback first, and no later delivery of that write is to the same callback, whatever the callbacks write. |
| PropsReentry.ApplyWriteGReturns | src/main/java/com/ath/atonyx/Props.kt:132-138 | Corrected: when no callback throws and the stack has room for every callback once, no write overflows. |
| PropsReentry.PropagateGReturns | src/main/java/com/ath/atonyx/Props.kt:124-142 | Corrected: the same bound for handling a change. |
| PropsReentry.ApplyWritesGReturns | src/main/java/com/ath/atonyx/Props.kt:135 | Corrected: the same bound for a callback body's writes. |
| PropsReentry.ApplyWriteGReconciles | src/main/java/com/ath/atonyx/Props.kt:126-131 | Corrected: every write keeps every property reconciled. |
| PropsReentry.PropagateGReconciles | src/main/java/com/ath/atonyx/Props.kt:124-142 | Corrected: handling a change repairs the one stale property and keeps the rest. |
| PropsReentry.ApplyWritesGReconciles | src/main/java/com/ath/atonyx/Props.kt:135 | Corrected: a callback body's writes keep every property reconciled. |
| PropsReentry.ChaseSettlesCorrected | src/main/java/com/ath/atonyx/Props.kt:132-138 | Corrected: the write that overflows as written runs the callback once and settles at key 0 = 2, key 1 = 1. |
| SurfaceLifecycle.ShutdownReason.Expected | src/main/java/com/ath/atonyx/SurfaceManager.kt:69-75 | Exactly ACTIVITY_DESTROY and MANUAL_SHUTDOWN are expected shutdowns. |
| SurfaceLifecycle.Without | src/main/java/com/ath/atonyx/SurfaceManager.kt:208 | `removeMessages(MSG_READY)` removes exactly that handler's messages and nothing else. It never adds a duplicate and never lengthens the queue. |
| SurfaceLifecycle.WithoutKeepsOrder | src/main/java/com/ath/atonyx/SurfaceManager.kt:208 | Removing one handler's messages keeps the order of the others: it distributes over concatenation of the queue. |
| SurfaceLifecycle.SurfaceManager.constructor | src/main/java/com/ath/atonyx/SurfaceManager.kt:145-151 | A new controller is shut down with reason UNKNOWN, with no handler, no references and an empty queue. |
| SurfaceLifecycle.SurfaceManager.IsValid | src/main/java/com/ath/atonyx/SurfaceManager.kt:212-215 | Valid means: not shut down, activity and surface alive, and width and height positive. Valid also implies a handler exists. |
| SurfaceLifecycle.SurfaceManager.Init | src/main/java/com/ath/atonyx/SurfaceManager.kt:176-187 | See the three points below this table. |
| SurfaceLifecycle.SurfaceManager.Shutdown | src/main/java/com/ath/atonyx/SurfaceManager.kt:189-199 | See the three points below this table. |
| SurfaceLifecycle.SurfaceManager.ShutdownManually | src/main/java/com/ath/atonyx/SurfaceManager.kt:48-50 | `shutdown()` is a first shutdown with reason MANUAL_SHUTDOWN and an empty message, or nothing. |
| SurfaceLifecycle.SurfaceManager.Enable | src/main/java/com/ath/atonyx/SurfaceManager.kt:201-204 | `enable` sets `enabled` and calls `onEnabled`. Nothing else changes. |
| SurfaceLifecycle.SurfaceManager.Disable | src/main/java/com/ath/atonyx/SurfaceManager.kt:206-210 | `disable` clears `enabled`, takes this handler's `MSG_READY` out of the queue and calls `onDisabled`. |
| SurfaceLifecycle.SurfaceManager.Act | src/main/java/com/ath/atonyx/SurfaceManager.kt:217-220 | The work runs exactly when the activity is reachable and the controller is live. An unreachable activity causes an ACTIVITY_LOST shutdown ("Activity Lost"). |
| SurfaceLifecycle.SurfaceManager.UpdateEnabled | src/main/java/com/ath/atonyx/SurfaceManager.kt:297-303 | See the three points below this table. |
| SurfaceLifecycle.SurfaceManager.QueueLayoutChanged | src/main/java/com/ath/atonyx/SurfaceManager.kt:320-325 | A message is queued only with a handler, while not enabled, and when that handler has none pending. At most one is pending per handler. |
| SurfaceLifecycle.SurfaceManager.DeliverReady | src/main/java/com/ath/atonyx/SurfaceManager.kt:181-182 | The looper delivers the oldest `MSG_READY`, and that message runs `updateEnabled(true)`. A message arriving after shutdown changes only the queue. |
| SurfaceLifecycle.SurfaceManager.OnResume | src/main/java/com/ath/atonyx/SurfaceManager.kt:227 | A resume enables exactly when the controller is valid. It can also disable an enabled controller whose surface is no longer valid. |
| SurfaceLifecycle.SurfaceManager.OnPause | src/main/java/com/ath/atonyx/SurfaceManager.kt:228 | A pause leaves a live controller disabled, and calls `onDisabled` only if it was enabled. |
| SurfaceLifecycle.SurfaceManager.OnDestroy | src/main/java/com/ath/atonyx/SurfaceManager.kt:230 | A destroy is a shutdown with reason ACTIVITY_DESTROY and message "Lifecycle OnDestroy". |
| SurfaceLifecycle.SurfaceManager.OnActivityEvent | src/main/java/com/ath/atonyx/SurfaceManager.kt:247-260 | Each lifecycle callback is wrapped in `act`. Only resume, pause and destroy react. A lost activity shuts the controller down. |
| SurfaceLifecycle.MeasuredAfterResume | src/main/java/com/ath/atonyx/SurfaceManager.kt:267-296 | A resume before measuring leaves the controller disabled. Three layouts queue one message. Its delivery calls `onEnabled` exactly once. |
| SurfaceLifecycle.ShutdownTwice | src/main/java/com/ath/atonyx/SurfaceManager.kt:189-199 | A second shutdown neither calls `onShutdown` again nor changes the recorded reason. |
| SurfaceLifecycle.Reinit | src/main/java/com/ath/atonyx/SurfaceManager.kt:176-187 | Re-initialising a live controller first shuts it down as "recycled without shutdown". |

`PropsLemmas.NotifyExactlyOnChange`, from a reconciled state:
- a write runs the callback if and only if four things hold: the effective value changes, a callback exists, the guard does not hold it off, and the stack has room;
- the first `Delta` carries the written layer's source, the new value, the previous value and the current `usr` and `sys`;
- an unchanged value records only the layer store.

`SurfaceLifecycle.SurfaceManager.Init`:
- a live controller is first shut down as MANUAL_SHUTDOWN with "recycled without shutdown";
- then the controller is live, disabled, wired to a new handler that has nothing pending, and has reason UNKNOWN;
- `onStartup` is the last hook called.

`SurfaceLifecycle.SurfaceManager.Shutdown`:
- it is idempotent: a second call changes nothing;
- the first call clears the handler, the references and `enabled`, records the reason and the message, and calls `onShutdown` once;
- it leaves queued messages in place.

`SurfaceLifecycle.SurfaceManager.UpdateEnabled`:
- once shut down, nothing happens;
- otherwise `enabled` becomes `resumed && isValid()`;
- `onEnabled` or `onDisabled` is called only on a change, and queued messages are withdrawn only on a disable.

## Findings

| source | as written | input that shows it | evidently intended | confidence | as-written member | corrected member |
|---|---|---|---|---|---|---|
| src/main/java/com/ath/atonyx/Props.kt:132-138 | The one guard slot is overwritten by the next changing property's hash (null if it has no callback) and set to null in `finally`, not restored. A callback that changes another property then re-enters itself on its next self-write. | Key 0 has a callback (hash 7) doing `key1.sys = cur` then `key0.sys = cur + 1`. Key 1 has no callback. Both default to 0. Then `key0.sys = 1`. | A callback does not run again while it runs (ManagedPropsTest.kt:132). | not executed | PropsReentry.ChaseOverflowsAsWritten | PropsReentry.CorrectedRunsOncePerWrite |

The as-written behaviour recurses until `StackOverflowError`. That is `ChaseOverflowsAsWritten`, proved for every stack depth; `ChaseNests` is its induction.

The corrected engine (`PropsReentry.ApplyWriteG` and the functions it calls) keeps the set of callbacks in progress. Leaving a callback restores the set. It is proved on three points:
- it never re-enters a callback (`CorrectedRunsOncePerWrite`);
- it never overflows a stack with room for every callback once (`ApplyWriteGReturns`);
- it stays reconciled (`ApplyWriteGReconciles`).

On the same input it settles after one run (`ChaseSettlesCorrected`). The `ManagedProps` class keeps the behaviour as written, so that its methods match the source line by line.

## Left out

- Locking: `synchronized` is left out. The model is single-threaded, and each operation is atomic.
- `Delta.describe` is left out. It is string formatting.
- The `asap` flag and the commented-out `PropN`/`PropQ` classes are left out. No code reads the flag, and the enqueue mode the class comment describes has no implementation.
- One value type: all properties of one engine share a value type `V`. Kotlin's `Prop<Any?>` casts are left out.
- Unregistered keys: a write to a key outside the registry does nothing. In Kotlin every `Prop` object is a key.
- Callback bodies are pure: in the model, a callback computes its writes from its `Delta` alone. A Kotlin body can also read other properties between its writes, write properties of another engine, or catch the exceptions of its nested writes.
- Stack depth: the stack is an explicit `fuel` bound, one level per callback, and it overflows only on entry to a callback. A real stack overflow depends on frame sizes.
- Props.ApplyWriteReconciles: holds for the modelled overflow only. The modelled overflow happens after `cur` is reconciled. A real `StackOverflowError` in the unbounded nesting of "## Findings" can strike between the store (Props.kt:100) and the reconcile (Props.kt:131), for instance at the call on Props.kt:107, and leave that property's `cur` stale.
- Hash collisions: two distinct callbacks with the same `hashCode()` are modelled by giving them the same `id`. The model does not derive ids.
- Handler timing: the 10 ms delay and the order of delivery relative to other main-thread work are left out. `DeliverReady` is the only delivery step.
- Weak references: what the weak references point at is the `Host` parameter. Garbage collection is not modelled.
- Lifecycle callbacks, registration: `registerActivityLifecycleCallbacks`, `registerComponentCallbacks` and `addOnLayoutChangeListener` are left out. As written, every `init` adds new registrations that are never removed, and the callbacks react to every activity of the application, whatever the `Activity` argument. The model delivers each event once to the one controller.
- Component callbacks: `onConfChange`, `onLowMem` and `onTrimMem` are left out. They are no-ops.
- `requireActivity` is left out. It throws when the view has no activity.
- `post` is left out. It is never used.
- Bundles: `onStartup`'s bundle argument and `onSave` are left out, and `onSave` is never called.
- `surface` and `activity` are left out. As written, these properties are initialised once at construction from references that are still null, so `null!!` fails there.
- Builder hooks: the builder's `onShutdown` calls `super.onEnabled()`, a no-op. The model records only the hook that was called.
- The other files of the library are not part of this model: AtOnyx.kt, the stroke and pen classes, and the utilities.

## Notes

- At ManagedPropsTest.kt:105, a comment says that after `usr = false`, "cur is now set". The code writes `cur` only when the effective value changes (Props.kt:130-131), so `cur` stays unset there. The model follows the code.
- When a controller shuts down, its queued `MSG_READY` messages stay queued, because `shutdown` does not remove them. After a re-`init`, such a stale message from an older handler still calls `updateEnabled(true)` on the controller. The model keeps the queue across handlers to capture this.
