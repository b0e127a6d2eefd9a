/**
 * The surface lifecycle controller (`__SurfaceManager` in SurfaceManager.kt).
 *
 * The controller holds weak references to an activity and a surface view, a
 * main-thread `Handler`, and the flags `enabled` and `shutdown`. Lifecycle and
 * layout events of the activity and the surface drive it between started,
 * enabled, disabled and shut down, and each transition calls one of the owner's
 * hooks, recorded here in the ghost log `hooks`.
 *
 * What the weak references point at belongs to the environment: each event that
 * looks through them receives a `Host` describing whether the activity and the
 * surface are still alive and the surface's size at that moment. A handler is
 * known by its generation number; the main looper's queue of `MSG_READY`
 * messages is the sequence `pending` of the handlers they were sent to, oldest
 * first, and its delivery is the explicit step `DeliverReady`.
 */
module SurfaceLifecycle {
  import opened Wrappers

  /** Why a controller shut down, with the enum's `expected` flag. */
  datatype ShutdownReason = ActivityDestroy | ActivityLost | SurfaceLost | ManualShutdown | Unknown {
    function Expected(): (expected: bool)
      ensures expected <==> this == ActivityDestroy || this == ManualShutdown
    {
      match this
      case ActivityDestroy => true
      case ActivityLost => false
      case SurfaceLost => false
      case ManualShutdown => true
      case Unknown => false
    }
  }

  /** The owner's hooks, in the order the controller calls them. */
  datatype Hook = OnStartup | OnEnabled | OnDisabled | OnShutdown(reason: ShutdownReason, message: string)

  /** The objects behind the two weak references, as they are when an event arrives. */
  datatype Host = Host(activityAlive: bool, surfaceAlive: bool, width: int, height: int)

  /** The activity lifecycle callbacks the controller registers for. */
  datatype ActivityEvent = Created | Started | Resumed | Paused | Stopped | Destroyed | SavedInstanceState

  /** No handler appears twice in the queue: at most one `MSG_READY` per handler. */
  ghost predicate NoDuplicates(q: seq<nat>) {
    forall i, j | 0 <= i < j < |q| :: q[i] != q[j]
  }

  /** `removeMessages(MSG_READY)` on handler `h`: its messages leave the queue, the rest keep their order. */
  function Without(q: seq<nat>, h: nat): (r: seq<nat>)
    ensures forall x :: x in r <==> x in q && x != h
    ensures NoDuplicates(q) ==> NoDuplicates(r)
    ensures |r| <= |q|
    ensures h !in q ==> r == q
  {
    if q == [] then []
    else if q[0] == h then Without(q[1..], h)
    else
      var rest := Without(q[1..], h);
      assert NoDuplicates(q) ==> q[0] !in q[1..] && NoDuplicates(q[1..]) by {
        if NoDuplicates(q) {
          forall i | 0 <= i < |q[1..]| ensures q[1..][i] != q[0] {
            assert q[1..][i] == q[i + 1];
          }
        }
      }
      [q[0]] + rest
  }

  /** `Without` keeps the order of what remains: it distributes over concatenation. */
  lemma {:induction false} WithoutKeepsOrder(a: seq<nat>, b: seq<nat>, h: nat)
    ensures Without(a + b, h) == Without(a, h) + Without(b, h)
  {
    if a == [] {
      assert a + b == b;
    } else {
      assert (a + b)[0] == a[0];
      assert (a + b)[1..] == a[1..] + b;
      WithoutKeepsOrder(a[1..], b, h);
    }
  }

  class SurfaceManager {
    /** The handler made by the latest `init`, by generation; None when shut down. */
    var handler: Option<nat>
    /** How many handlers `init` has made: the next handler's generation. */
    var handlersMade: nat
    /** Whether `wActivity` and `wSurfaceView` are set (they are cleared on shutdown). */
    var wired: bool
    var enabled: bool
    var shutdown: bool
    var shutdownReason: ShutdownReason
    var shutdownMessage: string
    /** The looper's pending `MSG_READY` messages, by target handler, oldest first. */
    var pending: seq<nat>
    /** Every hook called so far, in order. */
    ghost var hooks: seq<Hook>

    ghost predicate Valid()
      reads this
    {
      && wired == !shutdown
      && handler.Some? == !shutdown
      && (handler.Some? ==> handler.value < handlersMade)
      && (forall h | h in pending :: h < handlersMade)
      && NoDuplicates(pending)
      && (!shutdown ==> shutdownReason == Unknown && shutdownMessage == "")
    }

    /** A new controller is shut down with no reason until `init`. */
    constructor ()
      ensures Valid()
      ensures handler == None && !wired && !enabled && shutdown
      ensures shutdownReason == Unknown && shutdownMessage == ""
      ensures pending == [] && hooks == []
    {
      handler := None;
      handlersMade := 0;
      wired := false;
      enabled := false;
      shutdown := true;
      shutdownReason := Unknown;
      shutdownMessage := "";
      pending := [];
      hooks := [];
    }

    /** `isValid`: not shut down, both references alive, and the surface measured. */
    function IsValid(host: Host): (valid: bool)
      reads this
      ensures Valid() && valid ==> handler.Some? && wired
      ensures Valid() ==> (valid <==> !shutdown && host.activityAlive && host.surfaceAlive && host.width > 0 && host.height > 0)
    {
      !shutdown && wired && host.activityAlive && host.surfaceAlive && host.width > 0 && host.height > 0
    }

    /**
     * `init`: a controller that is still live is first shut down as recycled;
     * then it starts over with a new handler, disabled, and calls `onStartup`.
     */
    method Init()
      requires Valid()
      modifies this
      ensures Valid()
      ensures !shutdown && !enabled && wired
      ensures handler == Some(old(handlersMade)) && handler.value !in pending
      ensures shutdownReason == Unknown && shutdownMessage == ""
      ensures pending == old(pending)
      ensures hooks == old(hooks) + (if old(shutdown) then [] else [OnShutdown(ManualShutdown, "recycled without shutdown")]) + [OnStartup]
    {
      if !shutdown {
        Shutdown(ManualShutdown, "recycled without shutdown");
      }
      handler := Some(handlersMade);
      handlersMade := handlersMade + 1;
      enabled, shutdown := false, false;
      shutdownReason, shutdownMessage := Unknown, "";
      wired := true;
      hooks := hooks + [OnStartup];
    }

    /**
     * `shutdown(reason, msg)`: idempotent. The first call drops the handler and
     * both references, disables, records why and calls `onShutdown`; messages
     * already queued stay queued.
     */
    method Shutdown(reason: ShutdownReason, msg: string)
      requires Valid()
      modifies this
      ensures Valid()
      ensures old(shutdown) ==> unchanged(this)
      ensures !old(shutdown) ==>
        && shutdown && !enabled && !wired && handler == None
        && shutdownReason == reason && shutdownMessage == msg
        && pending == old(pending) && handlersMade == old(handlersMade)
        && hooks == old(hooks) + [OnShutdown(reason, msg)]
    {
      if !shutdown {
        handler := None;
        wired := false;
        enabled := false;
        shutdown := true;
        shutdownReason, shutdownMessage := reason, msg;
        hooks := hooks + [OnShutdown(reason, msg)];
      }
    }

    /** `SurfaceStarted.shutdown()`: a manual shutdown with an empty message. */
    method ShutdownManually()
      requires Valid()
      modifies this
      ensures Valid()
      ensures old(shutdown) ==> unchanged(this)
      ensures !old(shutdown) ==>
        && shutdown && !enabled && !wired && handler == None
        && shutdownReason == ManualShutdown && shutdownMessage == ""
        && pending == old(pending) && handlersMade == old(handlersMade)
        && hooks == old(hooks) + [OnShutdown(ManualShutdown, "")]
    {
      Shutdown(ManualShutdown, "");
    }

    /** `enable`: sets the flag and calls `onEnabled`, whatever the state. */
    method Enable()
      requires Valid()
      modifies this
      ensures Valid()
      ensures enabled && hooks == old(hooks) + [OnEnabled]
      ensures handler == old(handler) && wired == old(wired) && shutdown == old(shutdown) && pending == old(pending)
      ensures handlersMade == old(handlersMade) && shutdownReason == old(shutdownReason) && shutdownMessage == old(shutdownMessage)
    {
      enabled := true;
      hooks := hooks + [OnEnabled];
    }

    /** `disable`: clears the flag, withdraws this handler's pending `MSG_READY`, and calls `onDisabled`. */
    method Disable()
      requires Valid()
      modifies this
      ensures Valid()
      ensures !enabled && hooks == old(hooks) + [OnDisabled]
      ensures pending == if handler.Some? then Without(old(pending), handler.value) else old(pending)
      ensures handler.Some? ==> handler.value !in pending
      ensures handler == old(handler) && wired == old(wired) && shutdown == old(shutdown)
      ensures handlersMade == old(handlersMade) && shutdownReason == old(shutdownReason) && shutdownMessage == old(shutdownMessage)
    {
      enabled := false;
      match handler {
        case Some(h) => pending := Without(pending, h);
        case None =>
      }
      hooks := hooks + [OnDisabled];
    }

    /**
     * `act`: decides whether a lifecycle callback's work runs. It runs when the
     * activity is reachable and the controller is live; when the activity is
     * not reachable the controller shuts down as having lost it.
     */
    method Act(host: Host) returns (run: bool)
      requires Valid()
      modifies this
      ensures Valid()
      ensures run <==> old(wired) && host.activityAlive && !old(shutdown)
      ensures run || old(shutdown) ==> unchanged(this)
      ensures !run && !old(shutdown) ==>
        && shutdown && !enabled && !wired && handler == None
        && shutdownReason == ActivityLost && shutdownMessage == "Activity Lost"
        && pending == old(pending) && handlersMade == old(handlersMade)
        && hooks == old(hooks) + [OnShutdown(ActivityLost, "Activity Lost")]
    {
      if wired && host.activityAlive {
        run := !shutdown;
      } else {
        run := false;
        Shutdown(ActivityLost, "Activity Lost");
      }
    }

    /**
     * `updateEnabled(resumed)`: nothing once shut down; otherwise the flag
     * becomes `resumed && isValid()`, calling `enable` or `disable` only when
     * it changes.
     */
    method UpdateEnabled(resumed: bool, host: Host)
      requires Valid()
      modifies this
      ensures Valid()
      ensures old(shutdown) ==> unchanged(this)
      ensures !old(shutdown) ==> enabled == (resumed && old(IsValid(host)))
      ensures !old(shutdown) ==> hooks == old(hooks) + (if enabled == old(enabled) then [] else if enabled then [OnEnabled] else [OnDisabled])
      ensures pending == if !old(shutdown) && old(enabled) && !enabled then Without(old(pending), old(handler).value) else old(pending)
      ensures handler == old(handler) && wired == old(wired) && shutdown == old(shutdown)
      ensures handlersMade == old(handlersMade) && shutdownReason == old(shutdownReason) && shutdownMessage == old(shutdownMessage)
    {
      if shutdown {
        return;
      }
      var newState := resumed && IsValid(host);
      if newState == enabled {
        return;
      }
      if newState {
        Enable();
      } else {
        Disable();
      }
    }

    /**
     * `queueLayoutChanged`, run on every layout of the surface: a `MSG_READY`
     * is sent only when there is a handler, the controller is not enabled and
     * that handler has none pending. A burst of layouts queues one message.
     */
    method QueueLayoutChanged()
      requires Valid()
      modifies this
      ensures Valid()
      ensures pending == if old(handler).Some? && !old(enabled) && old(handler).value !in old(pending)
        then old(pending) + [old(handler).value] else old(pending)
      ensures handler.Some? ==> handler.value in pending || enabled
      ensures handler == old(handler) && enabled == old(enabled) && shutdown == old(shutdown) && wired == old(wired)
      ensures handlersMade == old(handlersMade) && hooks == old(hooks)
      ensures shutdownReason == old(shutdownReason) && shutdownMessage == old(shutdownMessage)
    {
      match handler {
        case Some(h) =>
          if !enabled && h !in pending {
            pending := pending + [h];
          }
        case None =>
      }
    }

    /**
     * The looper delivers the oldest pending `MSG_READY`; every handler `init`
     * made answers it with `updateEnabled(true)`, so one that arrives after a
     * shutdown changes nothing but the queue.
     */
    method DeliverReady(host: Host)
      requires Valid() && pending != []
      modifies this
      ensures Valid()
      ensures old(shutdown) ==> pending == old(pending)[1..] && enabled == old(enabled) && hooks == old(hooks)
      ensures !old(shutdown) ==> enabled == old(IsValid(host))
      ensures !old(shutdown) ==> hooks == old(hooks) + (if enabled == old(enabled) then [] else if enabled then [OnEnabled] else [OnDisabled])
      ensures pending == if !old(shutdown) && old(enabled) && !enabled then Without(old(pending)[1..], old(handler).value) else old(pending)[1..]
      ensures handler == old(handler) && wired == old(wired) && shutdown == old(shutdown)
      ensures handlersMade == old(handlersMade) && shutdownReason == old(shutdownReason) && shutdownMessage == old(shutdownMessage)
    {
      assert forall h | h in pending[1..] :: h in pending;
      pending := pending[1..];
      UpdateEnabled(true, host);
    }

    /** `onResume`: the activity resumed. */
    method OnResume(host: Host)
      requires Valid()
      modifies this
      ensures Valid()
      ensures old(shutdown) ==> unchanged(this)
      ensures !old(shutdown) ==> enabled == old(IsValid(host))
      ensures !old(shutdown) ==> hooks == old(hooks) + (if enabled == old(enabled) then [] else if enabled then [OnEnabled] else [OnDisabled])
      ensures pending == if !old(shutdown) && old(enabled) && !enabled then Without(old(pending), old(handler).value) else old(pending)
      ensures handler == old(handler) && wired == old(wired) && shutdown == old(shutdown)
      ensures handlersMade == old(handlersMade) && shutdownReason == old(shutdownReason) && shutdownMessage == old(shutdownMessage)
    {
      UpdateEnabled(true, host);
    }

    /** `onPause`: the activity paused. */
    method OnPause(host: Host)
      requires Valid()
      modifies this
      ensures Valid()
      ensures old(shutdown) ==> unchanged(this)
      ensures !enabled || old(shutdown)
      ensures !old(shutdown) ==> hooks == old(hooks) + (if old(enabled) then [OnDisabled] else [])
      ensures pending == if !old(shutdown) && old(enabled) then Without(old(pending), old(handler).value) else old(pending)
      ensures handler == old(handler) && wired == old(wired) && shutdown == old(shutdown)
      ensures handlersMade == old(handlersMade) && shutdownReason == old(shutdownReason) && shutdownMessage == old(shutdownMessage)
    {
      UpdateEnabled(false, host);
    }

    /** `onDestroy`: the activity is destroyed. */
    method OnDestroy()
      requires Valid()
      modifies this
      ensures Valid()
      ensures old(shutdown) ==> unchanged(this)
      ensures !old(shutdown) ==>
        && shutdown && !enabled && !wired && handler == None
        && shutdownReason == ActivityDestroy && shutdownMessage == "Lifecycle OnDestroy"
        && handlersMade == old(handlersMade)
        && hooks == old(hooks) + [OnShutdown(ActivityDestroy, "Lifecycle OnDestroy")]
      ensures pending == old(pending)
    {
      Shutdown(ActivityDestroy, "Lifecycle OnDestroy");
    }

    /**
     * One registered activity lifecycle callback: `act { ... }` around the
     * matching reaction. Only resume, pause and destroy react.
     */
    method OnActivityEvent(e: ActivityEvent, host: Host)
      requires Valid()
      modifies this
      ensures Valid()
      ensures old(shutdown) ==> unchanged(this)
      ensures !old(shutdown) && !host.activityAlive ==>
        && shutdown && !enabled && !wired && handler == None
        && shutdownReason == ActivityLost && shutdownMessage == "Activity Lost"
        && pending == old(pending) && handlersMade == old(handlersMade)
        && hooks == old(hooks) + [OnShutdown(ActivityLost, "Activity Lost")]
      ensures !old(shutdown) && host.activityAlive ==> match e
        case Resumed =>
          && enabled == old(IsValid(host))
          && hooks == old(hooks) + (if enabled == old(enabled) then [] else if enabled then [OnEnabled] else [OnDisabled])
          && pending == (if old(enabled) && !enabled then Without(old(pending), old(handler).value) else old(pending))
          && handler == old(handler) && wired == old(wired) && shutdown == old(shutdown) && handlersMade == old(handlersMade)
          && shutdownReason == old(shutdownReason) && shutdownMessage == old(shutdownMessage)
        case Paused =>
          && !enabled
          && hooks == old(hooks) + (if old(enabled) then [OnDisabled] else [])
          && pending == (if old(enabled) then Without(old(pending), old(handler).value) else old(pending))
          && handler == old(handler) && wired == old(wired) && shutdown == old(shutdown) && handlersMade == old(handlersMade)
          && shutdownReason == old(shutdownReason) && shutdownMessage == old(shutdownMessage)
        case Destroyed =>
          && shutdown && !enabled && !wired && handler == None
          && shutdownReason == ActivityDestroy && shutdownMessage == "Lifecycle OnDestroy"
          && pending == old(pending) && handlersMade == old(handlersMade)
          && hooks == old(hooks) + [OnShutdown(ActivityDestroy, "Lifecycle OnDestroy")]
        case _ => unchanged(this)
    {
      var run := Act(host);
      if run {
        match e {
          case Resumed => OnResume(host);
          case Paused => OnPause(host);
          case Destroyed => OnDestroy();
          case _ =>
        }
      }
    }
  }

  /**
   * The lifecycle scenario: resumed before the surface is measured, the
   * controller stays disabled; three layouts queue a single check, and that
   * check, once the surface has a size, enables it exactly once.
   */
  method MeasuredAfterResume() returns (m: SurfaceManager)
    ensures m.Valid() && m.enabled && m.pending == []
    ensures m.hooks == [OnStartup, OnEnabled]
  {
    m := new SurfaceManager();
    m.Init();
    m.OnActivityEvent(Resumed, Host(true, true, 0, 0));
    assert !m.enabled;
    m.QueueLayoutChanged();
    m.QueueLayoutChanged();
    m.QueueLayoutChanged();
    assert |m.pending| == 1;
    m.DeliverReady(Host(true, true, 1404, 1872));
  }

  /** Shutting down twice calls `onShutdown` once and keeps the first reason. */
  method ShutdownTwice() returns (m: SurfaceManager)
    ensures m.Valid() && m.shutdown && m.shutdownReason == ManualShutdown
    ensures m.hooks == [OnStartup, OnShutdown(ManualShutdown, "done")]
  {
    m := new SurfaceManager();
    m.Init();
    m.Shutdown(ManualShutdown, "done");
    m.Shutdown(ActivityLost, "later");
  }

  /** A second `init` without a shutdown first shuts the live instance down as recycled. */
  method Reinit() returns (m: SurfaceManager)
    ensures m.Valid() && !m.shutdown && m.shutdownReason == Unknown
    ensures m.hooks == [OnStartup, OnShutdown(ManualShutdown, "recycled without shutdown"), OnStartup]
  {
    m := new SurfaceManager();
    m.Init();
    m.Init();
  }
}
