/** Values shared by the lifecycle, history and layout-pulse models of the mvvm4fx core:
    the component state and history policy enumerations, the overridable hooks, and the
    events that the ghost traces of the models record. */
module Components {

  datatype Option<+T> = None | Some(value: T)

  /** ComponentState: the lifecycle phase of a component. */
  datatype ComponentState = Unconstructed | Constructed | Initialized | Deinitialized

  /** HistoryPolicy: which parts of a component's history are restored and saved
      (NONE, DATA, APPEARANCE and ALL in the source). */
  datatype HistoryPolicy = NoHistory | Data | Appearance | All

  /** Identity of a ComponentHistory object returned by a history provider. */
  type HistoryId = nat

  /** The overridable template hooks of a view, in the order the source declares them. */
  datatype ViewHook =
    | PreInitialize | Build | Bind | AddListeners | AddHandlers | PostInitialize
    | PreDeinitialize | RemoveHandlers | RemoveListeners | Unbind | Unbuild | PostDeinitialize

  /** The overridable hooks of a view model that bracket history restore and save. */
  datatype ModelHook = PostHistoryRestore | PreHistorySave

  /** The four ComponentHistory operations that the view model calls. */
  datatype HistoryOp = RestoreData | RestoreAppearance | SaveData | SaveAppearance

  /** Any user code that the core calls and that may throw. */
  datatype Hook = OfView(view: ViewHook) | OfModel(model: ModelHook) | OfHistory(op: HistoryOp)

  /** What can be thrown: the lifecycle's IllegalStateException, the NullPointerException
      "No history provider", or an exception out of a hook. */
  datatype Error = IllegalState | NoHistoryProvider | HookThrew(hook: Hook)

  /** One observable step of a component, in the order it happens. */
  datatype Event =
    | ViewCalled(hook: ViewHook)                         // a lifecycle hook of the view is invoked
    | ModelCalled(mhook: ModelHook)                      // postHistoryRestore / preHistorySave is invoked
    | HistoryCalled(op: HistoryOp, target: HistoryId)    // a ComponentHistory method is invoked on target
    | ProviderAsked                                      // the history provider's provide() is invoked
    | StateSet(state: ComponentState)                    // the state property is written
    | Logged(error: Error)                               // the lifecycle driver catches and logs an exception
    | Uncaught(error: Error)                             // the state listener threw; the property machinery
                                                         // hands the exception to the uncaught-exception handler

  /** The events that belong to the lifecycle driver itself, as opposed to the history side. */
  predicate IsLifecycleEvent(e: Event)
  {
    e.ViewCalled? || e.StateSet? || e.Logged?
  }

  /** The lifecycle events of a trace, in order. */
  function LifecycleEvents(t: seq<Event>): (r: seq<Event>)
    ensures |r| <= |t|
    ensures forall i :: 0 <= i < |r| ==> IsLifecycleEvent(r[i])
  {
    if t == [] then []
    else LifecycleEvents(t[..|t| - 1]) + (if IsLifecycleEvent(t[|t| - 1]) then [t[|t| - 1]] else [])
  }

  lemma {:induction false} LifecycleEventsAppend(a: seq<Event>, b: seq<Event>)
    ensures LifecycleEvents(a + b) == LifecycleEvents(a) + LifecycleEvents(b)
    decreases |b|
  {
    if b == [] {
      assert a + b == a;
    } else {
      var b' := b[..|b| - 1];
      assert (a + b)[..|a + b| - 1] == a + b';
      assert (a + b)[|a + b| - 1] == b[|b| - 1];
      LifecycleEventsAppend(a, b');
    }
  }

  /** A trace of lifecycle events only is its own lifecycle part. */
  lemma {:induction false} LifecycleEventsOnly(t: seq<Event>)
    requires forall e | e in t :: IsLifecycleEvent(e)
    ensures LifecycleEvents(t) == t
    decreases |t|
  {
    if t != [] {
      var n := |t| - 1;
      assert forall e | e in t[..n] :: e in t;
      LifecycleEventsOnly(t[..n]);
      assert t == t[..n] + [t[n]];
    }
  }

  /** Position of a state along the only forward path of the lifecycle. */
  function Rank(s: ComponentState): nat
  {
    match s
    case Unconstructed => 0
    case Constructed => 1
    case Initialized => 2
    case Deinitialized => 3
  }
}
