# mvvm4fx core: lifecycle, history and layout pulses

This project models the core of mvvm4fx, an MVVM library for JavaFX, and proves properties of that model.

- **Components** (`components.dfy`) holds the shared vocabulary:
  - the values `ComponentState` and `HistoryPolicy`;
  - the overridable hooks;
  - the events that every model records, in order, in a ghost trace.
- **ViewModels** (`view_model.dfy`) models `AbstractViewModel`:
  - the state property, which starts UNCONSTRUCTED;
  - the history policy, which starts NONE;
  - the history provider, and the history cached by `getOrRequestHistory()`;
  - the state listener, which reads the policy when the state changes. On CONSTRUCTED it restores the policy's parts and then calls `postHistoryRestore()`. On DEINITIALIZED it calls `preHistorySave()` and then saves the policy's parts.

  Pure functions (`RequestHistory`, `Reaction`, `Listener`, `WriteState`) specify a `ViewModel` class. Each of its methods is proved to change the fields exactly as the corresponding function says.
- **Views** (`view.dfy`) models `AbstractView`:
  - The constructor writes CONSTRUCTED.
  - `initialize()` runs its template: a state check, five hooks, the write of INITIALIZED, then `postInitialize`.
  - `deinitialize()` runs the mirror-image template.
  - An `Exception` thrown by a hook is caught and logged. The wrong state is an `IllegalStateException`. The throwing hook, `fault`, stands for an `Exception` subclass.

  Which hook throws is a parameter, `fault`. A `Step`/`Run` datatype strings lifecycle calls and property writes into arbitrary runs.
- **ComponentViews** (`component_view.dfy`) models `AbstractComponentView`. It is the same template, reading and writing the state held by the view model's descriptor. It is proved to act on that state exactly as `AbstractView` acts on the view model's state.
- **ChildViews** (`child_view.dfy`) models the layout-pulse bookkeeping of `AbstractChildView`:
  - two listener lists, one per timing;
  - a one-shot listener on the scene property;
  - one pulse callback per timing, at most, which captures the scene it is added to.

  The scenes' pulse-listener lists are the field `registry`. The identity of a new callback comes from a counter. The `ChildView` class keeps the source's fields and is proved against pure functions. `callListeners` is an iterator loop (`FilterInPlace`) proved against the reference `Filter`.


## Model

| member | source | states |
|---|---|---|
| ViewModels.ViewModel.constructor | mvvm4fx-core/src/main/java/com/techsenger/mvvm4fx/core/AbstractViewModel.java:38-47 | a new view model is UNCONSTRUCTED, has policy NONE, no provider, no cached history and an empty trace |
| ViewModels.InitialInv | mvvm4fx-core/src/main/java/com/techsenger/mvvm4fx/core/AbstractViewModel.java:43-47 | the initial view model satisfies the cache invariant: cache set iff provider consulted, consulted at most once, history calls only to the cached history |
| ViewModels.RequestHistory | mvvm4fx-core/src/main/java/com/techsenger/mvvm4fx/core/AbstractViewModel.java:148-157 | returns the cached history if one was provided, else the provider's; asks the provider and caches only when nothing is cached; with neither it is the "No history provider" exception and changes nothing |
| ViewModels.RequestHistoryTwice | mvvm4fx-core/src/main/java/com/techsenger/mvvm4fx/core/AbstractViewModel.java:148-157 | a second request after a successful one changes nothing and returns the same history; the invariant holds and the provider was asked at most once |
| ViewModels.ViewModel.GetOrRequestHistory | mvvm4fx-core/src/main/java/com/techsenger/mvvm4fx/core/AbstractViewModel.java:148-157 | the method's new state and result are those of RequestHistory |
| ViewModels.CallHistory | mvvm4fx-core/src/main/java/com/techsenger/mvvm4fx/core/AbstractViewModel.java:63-67 | all the history calls returned iff no listed operation throws, and then exactly the calls of the list happened, in order; every event is a call of a listed operation on the given history or the one uncaught exception |
| ViewModels.CallHistoryStops | mvvm4fx-core/src/main/java/com/techsenger/mvvm4fx/core/AbstractViewModel.java:63-67 | when the operation at position k throws (its first occurrence), the calls up to and including k happened, in order, then the uncaught exception, and no later call |
| ViewModels.Restored | mvvm4fx-core/src/main/java/com/techsenger/mvvm4fx/core/AbstractViewModel.java:54-68 | the restores of a policy: restoreData iff DATA or ALL, restoreAppearance iff APPEARANCE or ALL, both (data first) exactly for ALL, none exactly for NONE |
| ViewModels.Saved | mvvm4fx-core/src/main/java/com/techsenger/mvvm4fx/core/AbstractViewModel.java:79-93 | the saves of a policy: saveData iff DATA or ALL, saveAppearance iff APPEARANCE or ALL, both (data first) exactly for ALL, none exactly for NONE |
| ViewModels.CallHook | mvvm4fx-core/src/main/java/com/techsenger/mvvm4fx/core/AbstractViewModel.java:57 | calling a view model hook records the call first; it returns normally iff it is not the one that throws, and then it records only the call |
| ViewModels.RestoreThrowSkipsPost | mvvm4fx-core/src/main/java/com/techsenger/mvvm4fx/core/AbstractViewModel.java:54-68 | the Reaction function on CONSTRUCTED when restore operation op throws: the provider call if needed, the restores up to op, the uncaught exception; postHistoryRestore is never called |
| ViewModels.RestoreCallsStop | mvvm4fx-core/src/main/java/com/techsenger/mvvm4fx/core/AbstractViewModel.java:54-68 | when the restore at position k throws (its first occurrence), the restores up to and including k happen in order, then the uncaught exception, and postHistoryRestore is not called |
| ViewModels.SaveThrowStops | mvvm4fx-core/src/main/java/com/techsenger/mvvm4fx/core/AbstractViewModel.java:79-93 | the Reaction function on DEINITIALIZED when save operation op throws: preHistorySave, the provider call if needed, the saves up to op, the uncaught exception |
| ViewModels.CallHistoryPair | mvvm4fx-core/src/main/java/com/techsenger/mvvm4fx/core/AbstractViewModel.java:64-66 | two calls on one history are the first, then the second only when the first returned |
| ViewModels.Listener | mvvm4fx-core/src/main/java/com/techsenger/mvvm4fx/core/AbstractViewModel.java:50-100 | the listener keeps state, policy and provider, only appends events; under NONE, or in a state other than CONSTRUCTED and DEINITIALIZED, it does nothing |
| ViewModels.WriteState | mvvm4fx-core/src/main/java/com/techsenger/mvvm4fx/core/AbstractViewModel.java:144-146 | a write sets the state and records it first; writing the current value again only records the write (the listener does not fire) |
| ViewModels.ReactionSplit | mvvm4fx-core/src/main/java/com/techsenger/mvvm4fx/core/AbstractViewModel.java:50-100 | the listener's events are a part before the history request, at most one provider call and a part after it; neither part holds a lifecycle event or a provider call; every history call goes to the history handed out |
| ViewModels.ListenerCount | mvvm4fx-core/src/main/java/com/techsenger/mvvm4fx/core/AbstractViewModel.java:148-157 | the listener adds no lifecycle event and asks the provider exactly when it requests a history that is not cached and a provider exists |
| ViewModels.ListenerInv | mvvm4fx-core/src/main/java/com/techsenger/mvvm4fx/core/AbstractViewModel.java:148-157 | the listener, whatever throws, keeps the cache invariant Inv: the cache is set iff the provider was consulted, it was consulted at most once, and every history call went to the cached history |
| ViewModels.ListenerCalls | mvvm4fx-core/src/main/java/com/techsenger/mvvm4fx/core/AbstractViewModel.java:64-66 | after the listener every history call, earlier or new, went to the cached history |
| ViewModels.WriteStateFacts | mvvm4fx-core/src/main/java/com/techsenger/mvvm4fx/core/AbstractViewModel.java:144-146 | a state write adds exactly one lifecycle event, the write itself, and keeps the cache invariant |
| ViewModels.ListenerTable | mvvm4fx-core/src/main/java/com/techsenger/mvvm4fx/core/AbstractViewModel.java:52-98 | without faults: on CONSTRUCTED the provider call if needed, the policy's restores on the history (data first) and postHistoryRestore; on DEINITIALIZED preHistorySave, the provider call if needed and the policy's saves |
| ViewModels.ReactionOps | mvvm4fx-core/src/main/java/com/techsenger/mvvm4fx/core/AbstractViewModel.java:52-98 | whatever throws, on CONSTRUCTED only the policy's restore operations and never preHistorySave; on DEINITIALIZED only its save operations and never postHistoryRestore |
| ViewModels.TailOps | mvvm4fx-core/src/main/java/com/techsenger/mvvm4fx/core/AbstractViewModel.java:52-98 | the same for the events after the history request |
| ViewModels.RestoreCallsOps | mvvm4fx-core/src/main/java/com/techsenger/mvvm4fx/core/AbstractViewModel.java:55-67 | the restore calls call only the listed operations and never preHistorySave |
| ViewModels.ListenerSeparation | mvvm4fx-core/src/main/java/com/techsenger/mvvm4fx/core/AbstractViewModel.java:54-98 | whatever throws: APPEARANCE never calls a data operation, DATA never an appearance one, CONSTRUCTED never saves or calls preHistorySave, DEINITIALIZED never restores or calls postHistoryRestore |
| ViewModels.RestoreSeparation | mvvm4fx-core/src/main/java/com/techsenger/mvvm4fx/core/AbstractViewModel.java:54-73 | the separation facts for CONSTRUCTED |
| ViewModels.SaveSeparation | mvvm4fx-core/src/main/java/com/techsenger/mvvm4fx/core/AbstractViewModel.java:79-98 | the separation facts for DEINITIALIZED |
| ViewModels.ListenerNoProvider | mvvm4fx-core/src/main/java/com/techsenger/mvvm4fx/core/AbstractViewModel.java:149-152 | with no provider and nothing cached under a policy other than NONE, the listener throws "No history provider" before any history call: at once on CONSTRUCTED, after preHistorySave on DEINITIALIZED |
| ViewModels.RestoreSteps | mvvm4fx-core/src/main/java/com/techsenger/mvvm4fx/core/AbstractViewModel.java:52-73 | the CONSTRUCTED branch is the history request followed by the restores and postHistoryRestore |
| ViewModels.SaveSteps | mvvm4fx-core/src/main/java/com/techsenger/mvvm4fx/core/AbstractViewModel.java:74-98 | the DEINITIALIZED branch is preHistorySave, then, if it returned, the history request and the saves |
| ViewModels.ViewModel.OnStateChanged | mvvm4fx-core/src/main/java/com/techsenger/mvvm4fx/core/AbstractViewModel.java:50-100 | the listener body, with the policy read first, changes the view model exactly as Listener says |
| ViewModels.ViewModel.RestoreHistory | mvvm4fx-core/src/main/java/com/techsenger/mvvm4fx/core/AbstractViewModel.java:52-73 | the CONSTRUCTED switch changes the view model as Listener says |
| ViewModels.ViewModel.RunRestores | mvvm4fx-core/src/main/java/com/techsenger/mvvm4fx/core/AbstractViewModel.java:55-67 | the restores of the policy and then postHistoryRestore append exactly RestoreCalls |
| ViewModels.ViewModel.SaveHistory | mvvm4fx-core/src/main/java/com/techsenger/mvvm4fx/core/AbstractViewModel.java:74-98 | the DEINITIALIZED switch changes the view model as Listener says |
| ViewModels.ViewModel.CallPolicyOps | mvvm4fx-core/src/main/java/com/techsenger/mvvm4fx/core/AbstractViewModel.java:54-93 | the policy cases call the restores or saves of the policy table in order, stopping at a throw |
| ViewModels.ViewModel.CallHistoryOp | mvvm4fx-core/src/main/java/com/techsenger/mvvm4fx/core/AbstractViewModel.java:56 | one ComponentHistory call, with its exception handed on |
| ViewModels.ViewModel.CallModelHook | mvvm4fx-core/src/main/java/com/techsenger/mvvm4fx/core/AbstractViewModel.java:136-142 | one postHistoryRestore or preHistorySave call, with its exception handed on |
| ViewModels.ViewModel.SetState | mvvm4fx-core/src/main/java/com/techsenger/mvvm4fx/core/AbstractViewModel.java:144-146 | stateWrapper().set(s) changes the view model as WriteState says |
| ViewModels.ViewModel.SetHistoryPolicy | mvvm4fx-core/src/main/java/com/techsenger/mvvm4fx/core/AbstractViewModel.java:123-126 | only the policy changes |
| ViewModels.ViewModel.SetHistoryProvider | mvvm4fx-core/src/main/java/com/techsenger/mvvm4fx/core/AbstractViewModel.java:128-130 | only the provider changes |
| Views.RunHooks | mvvm4fx-core/src/main/java/com/techsenger/mvvm4fx/core/AbstractView.java:51-55 | the hooks all return iff none of them is the faulty one; then each was called once, in order; only view hooks are called |
| Views.RunHooksStops | mvvm4fx-core/src/main/java/com/techsenger/mvvm4fx/core/AbstractView.java:51-55 | when hook k throws, the hooks up to and including k ran and no later one |
| Views.RunFiveHooks | mvvm4fx-core/src/main/java/com/techsenger/mvvm4fx/core/AbstractView.java:51-55 | five hooks are five statements of a try block, each skipped once one has thrown |
| Views.AfterConstruct | mvvm4fx-core/src/main/java/com/techsenger/mvvm4fx/core/AbstractView.java:32-35 | the constructor leaves the view model CONSTRUCTED; from another state it records the write followed by the listener's events |
| Views.AfterInitialize | mvvm4fx-core/src/main/java/com/techsenger/mvvm4fx/core/AbstractView.java:46-63 | initialize() keeps policy and provider and only appends events |
| Views.Drive | mvvm4fx-core/src/main/java/com/techsenger/mvvm4fx/core/AbstractView.java:46-86 | the template shared by initialize() and deinitialize() keeps policy and provider and only appends to the trace |
| Views.DriveLastThrows | mvvm4fx-core/src/main/java/com/techsenger/mvvm4fx/core/AbstractView.java:46-63 | when only the last hook throws, the template runs every hook, writes the target state, calls the last hook and logs its exception |
| Views.AfterDeinitialize | mvvm4fx-core/src/main/java/com/techsenger/mvvm4fx/core/AbstractView.java:69-86 | deinitialize() keeps policy and provider and only appends events |
| Views.WrongStateOnlyLogs | mvvm4fx-core/src/main/java/com/techsenger/mvvm4fx/core/AbstractView.java:48-50 | initialize() outside CONSTRUCTED and deinitialize() outside INITIALIZED only log the IllegalStateException |
| Views.InitializeInOrder | mvvm4fx-core/src/main/java/com/techsenger/mvvm4fx/core/AbstractView.java:51-58 | without faults: preInitialize, build, bind, addListeners, addHandlers, the write of INITIALIZED, postInitialize |
| Views.InitializeStops | mvvm4fx-core/src/main/java/com/techsenger/mvvm4fx/core/AbstractView.java:51-62 | a hook before the write that throws leaves the state CONSTRUCTED: the hooks up to it ran and the exception is logged |
| Views.InitializePostThrows | mvvm4fx-core/src/main/java/com/techsenger/mvvm4fx/core/AbstractView.java:56-62 | a throwing postInitialize comes after the write: INITIALIZED, then the call and the log |
| Views.DeinitializeInOrder | mvvm4fx-core/src/main/java/com/techsenger/mvvm4fx/core/AbstractView.java:74-81 | without faults: the five hooks, the write of DEINITIALIZED with the listener's events, postDeinitialize |
| Views.DeinitializeStops | mvvm4fx-core/src/main/java/com/techsenger/mvvm4fx/core/AbstractView.java:74-85 | a hook before the write that throws leaves the state INITIALIZED with the hooks up to it run and the exception logged |
| Views.DeinitializePostThrows | mvvm4fx-core/src/main/java/com/techsenger/mvvm4fx/core/AbstractView.java:79-85 | a throwing postDeinitialize comes after the write: DEINITIALIZED, and the trace ends with the call and the log |
| Views.DeinitializeSaves | mvvm4fx-core/src/main/java/com/techsenger/mvvm4fx/core/AbstractView.java:74-81 | with a history and no fault the trace is the five hooks, the write of DEINITIALIZED, preHistorySave, the provider call if needed, the policy's saves on that history and postDeinitialize |
| Views.SavesOnDeinitialized | mvvm4fx-core/src/main/java/com/techsenger/mvvm4fx/core/AbstractViewModel.java:75-93 | the listener on the DEINITIALIZED write, without faults and with a history at hand, calls preHistorySave, asks the provider if needed and runs the policy's saves |
| Views.ConstructRestores | mvvm4fx-core/src/main/java/com/techsenger/mvvm4fx/core/AbstractView.java:32-35 | constructing over an UNCONSTRUCTED view model with a policy restores the policy's parts and then calls postHistoryRestore |
| Views.OneStepForward | mvvm4fx-core/src/main/java/com/techsenger/mvvm4fx/core/AbstractView.java:46-86 | initialize() moves only CONSTRUCTED to INITIALIZED, deinitialize() only INITIALIZED to DEINITIALIZED; otherwise the state stays |
| Views.LifecycleKeepsInv | mvvm4fx-core/src/main/java/com/techsenger/mvvm4fx/core/AbstractView.java:32-86 | the constructor, initialize() and deinitialize() keep the view model's cache invariant for every fault |
| Views.RunHooksPlain | mvvm4fx-core/src/main/java/com/techsenger/mvvm4fx/core/AbstractView.java:51-55 | the hooks' events are lifecycle events only, with no history call and no provider call |
| Views.RunForward | mvvm4fx-core/src/main/java/com/techsenger/mvvm4fx/core/AbstractView.java:46-86 | over any run the state never moves backward and advances by at most as many phases as the run has steps |
| Views.DeinitializedTerminal | mvvm4fx-core/src/main/java/com/techsenger/mvvm4fx/core/AbstractView.java:69-73 | no run leaves DEINITIALIZED |
| Views.RunKeepsInv | mvvm4fx-core/src/main/java/com/techsenger/mvvm4fx/core/AbstractViewModel.java:148-157 | over any run the cache invariant holds and the provider was asked at most once |
| Views.ProviderAskedAtMostOnce | mvvm4fx-core/src/main/java/com/techsenger/mvvm4fx/core/AbstractViewModel.java:148-157 | over a view model's whole life (settings, a constructor during which any one hook may throw, any run) the provider is consulted at most once |
| Views.PolicyReadAtTransition | mvvm4fx-core/src/main/java/com/techsenger/mvvm4fx/core/AbstractViewModel.java:50-51 | a policy set after initialization decides what deinitialize() saves |
| Views.View.constructor | mvvm4fx-core/src/main/java/com/techsenger/mvvm4fx/core/AbstractView.java:32-35 | the view keeps its view model, whose new state is AfterConstruct's |
| Views.View.Initialize | mvvm4fx-core/src/main/java/com/techsenger/mvvm4fx/core/AbstractView.java:46-63 | changes the view model as AfterInitialize says |
| Views.View.Deinitialize | mvvm4fx-core/src/main/java/com/techsenger/mvvm4fx/core/AbstractView.java:69-86 | changes the view model as AfterDeinitialize says |
| Views.View.InitHooksPhase | mvvm4fx-core/src/main/java/com/techsenger/mvvm4fx/core/AbstractView.java:51-55 | the five initialization hooks append RunHooks' events and report whether all returned |
| Views.View.DeinitHooksPhase | mvvm4fx-core/src/main/java/com/techsenger/mvvm4fx/core/AbstractView.java:74-78 | the five deinitialization hooks append RunHooks' events and report whether all returned |
| ComponentViews.ComponentConstruct | mvvm4fx-core/src/main/java/com/techsenger/mvvm4fx/core/AbstractComponentView.java:32-35 | the constructor leaves the descriptor CONSTRUCTED and records one write |
| ComponentViews.ComponentInitialize | mvvm4fx-core/src/main/java/com/techsenger/mvvm4fx/core/AbstractComponentView.java:46-63 | initialize() on the descriptor changes its state only to INITIALIZED, and does so iff it was CONSTRUCTED and no hook before the write throws; in the wrong state it only logs the IllegalStateException |
| ComponentViews.ComponentDeinitialize | mvvm4fx-core/src/main/java/com/techsenger/mvvm4fx/core/AbstractComponentView.java:69-86 | deinitialize() on the descriptor changes its state only to DEINITIALIZED, and does so iff it was INITIALIZED and no hook before the write throws; in the wrong state it only logs the IllegalStateException |
| ComponentViews.DriveDescriptor | mvvm4fx-core/src/main/java/com/techsenger/mvvm4fx/core/AbstractComponentView.java:46-86 | the template only appends to the descriptor's trace |
| ComponentViews.MatchesView | mvvm4fx-core/src/main/java/com/techsenger/mvvm4fx/core/AbstractComponentView.java:32-86 | for every fault the component view's constructor, initialize() and deinitialize() do to the descriptor's state and lifecycle events exactly what AbstractView's do to the view model |
| ComponentViews.DriveMatches | mvvm4fx-core/src/main/java/com/techsenger/mvvm4fx/core/AbstractComponentView.java:46-86 | the shared template agrees with AbstractView's template on state and lifecycle events |
| ComponentViews.ComponentView.constructor | mvvm4fx-core/src/main/java/com/techsenger/mvvm4fx/core/AbstractComponentView.java:32-35 | the descriptor's new state is ComponentConstruct's |
| ComponentViews.ComponentView.Initialize | mvvm4fx-core/src/main/java/com/techsenger/mvvm4fx/core/AbstractComponentView.java:46-63 | changes the descriptor as ComponentInitialize says |
| ComponentViews.ComponentView.Deinitialize | mvvm4fx-core/src/main/java/com/techsenger/mvvm4fx/core/AbstractComponentView.java:69-86 | changes the descriptor as ComponentDeinitialize says |
| ComponentViews.ComponentView.HooksPhase | mvvm4fx-core/src/main/java/com/techsenger/mvvm4fx/core/AbstractComponentView.java:52-56 | the hooks before the write append RunHooks' events and report whether all returned |
| ComponentViews.Descriptor.SetState | mvvm4fx-core/src/main/java/com/techsenger/mvvm4fx/core/AbstractComponentView.java:57 | the descriptor's state write |
| ChildViews.IndexOf | mvvm4fx-core/src/main/java/com/techsenger/mvvm4fx/core/AbstractChildView.java:87 | the position returned holds the listener and no earlier position does |
| ChildViews.RemoveFirst | mvvm4fx-core/src/main/java/com/techsenger/mvvm4fx/core/AbstractChildView.java:87 | List.remove leaves an absent listener's list unchanged and otherwise removes exactly one copy of it |
| ChildViews.RemoveFirstDeletesFirst | mvvm4fx-core/src/main/java/com/techsenger/mvvm4fx/core/AbstractChildView.java:87 | the copy List.remove deletes is the first occurrence, and the rest keep their order: what is left is the part before it followed by the part after it |
| ChildViews.Add | mvvm4fx-core/src/main/java/com/techsenger/mvvm4fx/core/AbstractChildView.java:50-81 | adding appends the listener to its own timing's list and leaves the other list, the scene and the calls alone |
| ChildViews.AddInstalls | mvvm4fx-core/src/main/java/com/techsenger/mvvm4fx/core/AbstractChildView.java:55-75 | the first listener of a timing, with no scene listener, installs the scene listener when there is no scene and otherwise a fresh callback on the scene; in every other case nothing is installed |
| ChildViews.SceneListenerOneShot | mvvm4fx-core/src/main/java/com/techsenger/mvvm4fx/core/AbstractChildView.java:114-128 | a change to a scene installs a callback on it for each non-empty list, pre first, then removes the scene listener; a change to no scene is ignored |
| ChildViews.SceneChangeUnheard | mvvm4fx-core/src/main/java/com/techsenger/mvvm4fx/core/AbstractChildView.java:126 | without a scene listener a scene change affects nothing but the scene |
| ChildViews.CheckPulseKeepsLists | mvvm4fx-core/src/main/java/com/techsenger/mvvm4fx/core/AbstractChildView.java:130-165 | the check and remove helpers (CheckPulse, RemovePulse, SceneListenerChecked, SceneListenerRemoved) never touch the lists or the calls |
| ChildViews.RemoveDeletesFirst | mvvm4fx-core/src/main/java/com/techsenger/mvvm4fx/core/AbstractChildView.java:83-105 | removal, as written (Remove, whether it returns or throws) or corrected (RemoveCorrected), deletes the first occurrence from its timing's list and leaves the other list alone |
| ChildViews.RemoveWithSceneListener | mvvm4fx-core/src/main/java/com/techsenger/mvvm4fx/core/AbstractChildView.java:130-134 | with the scene listener added, removal never throws and removes the scene listener exactly when both lists are now empty; callbacks and registrations stay |
| ChildViews.RemoveCorrectedDetaches | mvvm4fx-core/src/main/java/com/techsenger/mvvm4fx/core/AbstractChildView.java:153-165 | without a scene listener, removing a timing's last listener clears its callback and removes its registration from the scene it captured, whatever the current scene; otherwise nothing changes |
| ChildViews.RemoveAgrees | mvvm4fx-core/src/main/java/com/techsenger/mvvm4fx/core/AbstractChildView.java:83-105 | while the current scene is the captured one, or no callback is installed, the source's removal returns normally and equals the corrected one |
| ChildViews.RemoveHelpersIdempotent | mvvm4fx-core/src/main/java/com/techsenger/mvvm4fx/core/AbstractChildView.java:136-165 | removing or checking the scene listener or a pulse callback twice is the same as once, and never throws with a scene |
| ChildViews.FilterSnoc | mvvm4fx-core/src/main/java/com/techsenger/mvvm4fx/core/AbstractChildView.java:192-196 | one more listener is kept at the end iff it answered true |
| ChildViews.FilterMembers | mvvm4fx-core/src/main/java/com/techsenger/mvvm4fx/core/AbstractChildView.java:190-198 | Filter, the reference for callListeners, keeps a listener iff it sits at a position whose call returned true |
| ChildViews.FilterAppend | mvvm4fx-core/src/main/java/com/techsenger/mvvm4fx/core/AbstractChildView.java:190-198 | keeping distributes over concatenation, so relative order is preserved |
| ChildViews.CursorStep | mvvm4fx-core/src/main/java/com/techsenger/mvvm4fx/core/AbstractChildView.java:192-196 | one iterator step: deleting under the cursor or stepping over it yields the next partial result |
| ChildViews.FilterInPlace | mvvm4fx-core/src/main/java/com/techsenger/mvvm4fx/core/AbstractChildView.java:190-198 | the iterator loop calls the listeners in order up to and including the first that throws, or all of them; it leaves Survivors of the list (Filter of it when none throws) and reports whether one threw |
| ChildViews.Reach | mvvm4fx-core/src/main/java/com/techsenger/mvvm4fx/core/AbstractChildView.java:192-196 | the loop reaches a position before the end iff a listener throws |
| ChildViews.CalledUpTo | mvvm4fx-core/src/main/java/com/techsenger/mvvm4fx/core/AbstractChildView.java:192-196 | the listeners called are a prefix of the list: all of them when none throws, otherwise up to and including the thrower |
| ChildViews.Survivors | mvvm4fx-core/src/main/java/com/techsenger/mvvm4fx/core/AbstractChildView.java:190-198 | the list left by the loop is Filter of it when no listener throws |
| ChildViews.StopsAt | mvvm4fx-core/src/main/java/com/techsenger/mvvm4fx/core/AbstractChildView.java:192-196 | when the listener at position k throws, the list left is Filter of the first k followed by the rest untouched, the thrower included, and exactly the first k + 1 were called |
| ChildViews.SurvivorsKeepRest | mvvm4fx-core/src/main/java/com/techsenger/mvvm4fx/core/AbstractChildView.java:192-196 | when a listener throws, the end of the list from the thrower on is kept as it was |
| ChildViews.PulseCalls | mvvm4fx-core/src/main/java/com/techsenger/mvvm4fx/core/AbstractChildView.java:145-148 | a pulse (the Pulse function) calls each listener of its timing once in order and keeps those that answered true; when one throws, the calls stop after it and the list keeps it and everything after; the other list is untouched |
| ChildViews.PulseDetaches | mvvm4fx-core/src/main/java/com/techsenger/mvvm4fx/core/AbstractChildView.java:145-157 | a pulse whose listeners all return and leave the list empty clears the callback and removes one registration of it from the scene it captured (none is left when it was registered once); when a listener throws or some remain, callbacks and registrations stay |
| ChildViews.FreshValid | mvvm4fx-core/src/main/java/com/techsenger/mvvm4fx/core/AbstractChildView.java:36-44 | a new view (Fresh) satisfies the registration invariant Valid: each installed callback is registered, with its timing, on the scene it captured, and every identity is below the counter |
| ChildViews.ValidFrame | mvvm4fx-core/src/main/java/com/techsenger/mvvm4fx/core/AbstractChildView.java:36-44 | the invariant depends only on the callbacks, the registrations and the next identity |
| ChildViews.AddPulseValid | mvvm4fx-core/src/main/java/com/techsenger/mvvm4fx/core/AbstractChildView.java:144-151 | AddPulse, installing a callback, keeps every installed callback registered with the scene it captured |
| ChildViews.RemovePulseValid | mvvm4fx-core/src/main/java/com/techsenger/mvvm4fx/core/AbstractChildView.java:159-165 | RemovePulse, removing a callback, keeps the invariant |
| ChildViews.CheckPulseValid | mvvm4fx-core/src/main/java/com/techsenger/mvvm4fx/core/AbstractChildView.java:153-157 | CheckPulse, checking a callback, keeps the invariant |
| ChildViews.AddKeepsValid | mvvm4fx-core/src/main/java/com/techsenger/mvvm4fx/core/AbstractChildView.java:50-81 | addLayoutPulseListener keeps the invariant |
| ChildViews.RemoveKeepsValid | mvvm4fx-core/src/main/java/com/techsenger/mvvm4fx/core/AbstractChildView.java:83-105 | removeLayoutPulseListener, as written (even when it throws) and corrected, keeps the invariant |
| ChildViews.SceneChangedKeepsValid | mvvm4fx-core/src/main/java/com/techsenger/mvvm4fx/core/AbstractChildView.java:114-128 | a scene change keeps the invariant |
| ChildViews.SceneChanged | mvvm4fx-core/src/main/java/com/techsenger/mvvm4fx/core/AbstractChildView.java:115-125 | a scene change sets the scene and never touches the lists or the calls |
| ChildViews.InstalledRegistration | mvvm4fx-core/src/main/java/com/techsenger/mvvm4fx/core/AbstractChildView.java:144-151 | the registration of the installed callback of a timing, if any |
| ChildViews.Install | mvvm4fx-core/src/main/java/com/techsenger/mvvm4fx/core/AbstractChildView.java:144-151 | corrected: installing a callback first removes the one installed for that timing from the scene it captured, then adds a fresh one to the new scene; nothing else changes |
| ChildViews.Reinstall | mvvm4fx-core/src/main/java/com/techsenger/mvvm4fx/core/AbstractChildView.java:115-125 | corrected: a timing with listeners gets a callback on the new scene; the other timing, the lists and the calls are untouched |
| ChildViews.InstallValid | mvvm4fx-core/src/main/java/com/techsenger/mvvm4fx/core/AbstractChildView.java:144-151 | the corrected installation keeps the invariant |
| ChildViews.ReinstallValid | mvvm4fx-core/src/main/java/com/techsenger/mvvm4fx/core/AbstractChildView.java:115-125 | the corrected reinstallation keeps the invariant |
| ChildViews.ReinstallOwnCount | mvvm4fx-core/src/main/java/com/techsenger/mvvm4fx/core/AbstractChildView.java:115-125 | reinstalling a timing that has a callback drops exactly one copy of its registration |
| ChildViews.ReinstallOtherCount | mvvm4fx-core/src/main/java/com/techsenger/mvvm4fx/core/AbstractChildView.java:115-125 | reinstalling a timing leaves the count of every other registration alone |
| ChildViews.SceneChangedCorrected | mvvm4fx-core/src/main/java/com/techsenger/mvvm4fx/core/AbstractChildView.java:115-125 | the corrected scene listener sets the scene and never touches the lists or the calls |
| ChildViews.SceneChangedCorrectedDetaches | mvvm4fx-core/src/main/java/com/techsenger/mvvm4fx/core/AbstractChildView.java:115-125 | corrected: when the scene listener reinstalls a timing whose callback is still installed, that callback's registration on its captured scene loses one copy |
| ChildViews.ReinstallBothBefore | mvvm4fx-core/src/main/java/com/techsenger/mvvm4fx/core/AbstractChildView.java:115-125 | the two steps of the corrected scene listener drop exactly one copy of the BEFORE callback's registration |
| ChildViews.ReinstallBothAfter | mvvm4fx-core/src/main/java/com/techsenger/mvvm4fx/core/AbstractChildView.java:115-125 | the two steps of the corrected scene listener drop exactly one copy of the AFTER callback's registration |
| ChildViews.SceneChangedCorrectedAgrees | mvvm4fx-core/src/main/java/com/techsenger/mvvm4fx/core/AbstractChildView.java:115-125 | when no timing with listeners has a callback installed, the corrected scene listener equals the source's |
| ChildViews.SceneChangedCorrectedKeepsValid | mvvm4fx-core/src/main/java/com/techsenger/mvvm4fx/core/AbstractChildView.java:115-125 | the corrected scene listener keeps the invariant |
| ChildViews.AddCorrected | mvvm4fx-core/src/main/java/com/techsenger/mvvm4fx/core/AbstractChildView.java:50-81 | corrected: addLayoutPulseListener installs its first callback through Install; it appends the listener to its own timing's list and leaves the other list, the scene and the calls alone |
| ChildViews.AddCorrectedDetaches | mvvm4fx-core/src/main/java/com/techsenger/mvvm4fx/core/AbstractChildView.java:55-75 | corrected: adding the first listener of a timing on a scene while its callback is still installed drops one copy of that callback's registration from the scene it captured, and a fresh callback on the current scene becomes the installed one |
| ChildViews.AddCorrectedAgrees | mvvm4fx-core/src/main/java/com/techsenger/mvvm4fx/core/AbstractChildView.java:50-81 | when the addition installs nothing, or no callback is left installed for the timing, the corrected addition equals the source's |
| ChildViews.AddCorrectedKeepsValid | mvvm4fx-core/src/main/java/com/techsenger/mvvm4fx/core/AbstractChildView.java:50-81 | the corrected addition keeps the invariant |
| ChildViews.PulseKeepsValid | mvvm4fx-core/src/main/java/com/techsenger/mvvm4fx/core/AbstractChildView.java:145-148 | a pulse of any callback, whether a listener throws or not, keeps the invariant |
| ChildViews.RemoveAfterSceneLostThrows | mvvm4fx-core/src/main/java/com/techsenger/mvvm4fx/core/AbstractChildView.java:84 | as written: a listener added on scene 7, the view leaving its scene, then removing the listener throws NullPointerException and leaves the callback installed and registered |
| ChildViews.RemoveAfterSceneMovedLeaks | mvvm4fx-core/src/main/java/com/techsenger/mvvm4fx/core/AbstractChildView.java:84 | as written: after moving from scene 7 to scene 8, removing the last listener clears the field but leaves the callback registered on scene 7 |
| ChildViews.RemoveCorrectedExamples | mvvm4fx-core/src/main/java/com/techsenger/mvvm4fx/core/AbstractChildView.java:159-165 | corrected: in both situations the callback is detached from scene 7 and no registration remains |
| ChildViews.RemoveCorrectedLone | mvvm4fx-core/src/main/java/com/techsenger/mvvm4fx/core/AbstractChildView.java:159-165 | corrected: removing the only BEFORE listener, whose callback is on scene 7, leaves no callback and no registration whatever the current scene |
| ChildViews.SceneListenerOverwritesCallback | mvvm4fx-core/src/main/java/com/techsenger/mvvm4fx/core/AbstractChildView.java:118 | as written: a BEFORE listener on scene 7, the scene lost, an AFTER listener (which adds the scene listener), the BEFORE listener removed and another added, then scene 8: the new BEFORE callback replaces the old one while its registration on scene 7 stays |
| ChildViews.SceneChangedCorrectedExample | mvvm4fx-core/src/main/java/com/techsenger/mvvm4fx/core/AbstractChildView.java:145 | corrected: in that run only the two callbacks on scene 8 stay registered |
| ChildViews.ProbeSetup | mvvm4fx-core/src/main/java/com/techsenger/mvvm4fx/core/AbstractChildView.java:50-105 | the run up to the last scene change returns normally and leaves the scene listener added while the BEFORE callback on scene 7 is still installed and registered |
| ChildViews.ProbeCorrectedStep | mvvm4fx-core/src/main/java/com/techsenger/mvvm4fx/core/AbstractChildView.java:115-125 | corrected: from that state, moving to scene 8 detaches the scene-7 callback and leaves only the two callbacks on scene 8 |
| ChildViews.AddOverwritesCallback | mvvm4fx-core/src/main/java/com/techsenger/mvvm4fx/core/AbstractChildView.java:60 | as written: a BEFORE listener on scene 7, the scene lost, an AFTER listener (which adds the scene listener), both listeners removed, then scene 8 and a new BEFORE listener: its callback replaces the one still registered on scene 7, and both registrations stay |
| ChildViews.AddProbeSetup | mvvm4fx-core/src/main/java/com/techsenger/mvvm4fx/core/AbstractChildView.java:83-105 | the removals of that run made under the scene listener return normally and leave the scene-7 callback installed and registered, with no scene listener and both lists empty |
| ChildViews.AddCorrectedExample | mvvm4fx-core/src/main/java/com/techsenger/mvvm4fx/core/AbstractChildView.java:60 | corrected: from that state the addition detaches the scene-7 callback and leaves only the new one on scene 8 registered |
| ChildViews.ChildView.constructor | mvvm4fx-core/src/main/java/com/techsenger/mvvm4fx/core/AbstractChildView.java:36-48 | no scene listener, no callbacks, empty lists |
| ChildViews.ChildView.AddLayoutPulseListener | mvvm4fx-core/src/main/java/com/techsenger/mvvm4fx/core/AbstractChildView.java:50-81 | changes the fields as Add says |
| ChildViews.ChildView.RemoveLayoutPulseListener | mvvm4fx-core/src/main/java/com/techsenger/mvvm4fx/core/AbstractChildView.java:83-105 | changes the fields as Remove says and reports the NullPointerException exactly when Remove throws |
| ChildViews.ChildView.AddSceneListener | mvvm4fx-core/src/main/java/com/techsenger/mvvm4fx/core/AbstractChildView.java:114-128 | the scene listener is added |
| ChildViews.ChildView.CheckSceneListener | mvvm4fx-core/src/main/java/com/techsenger/mvvm4fx/core/AbstractChildView.java:130-134 | the scene listener is removed iff both lists are empty |
| ChildViews.ChildView.RemoveSceneListener | mvvm4fx-core/src/main/java/com/techsenger/mvvm4fx/core/AbstractChildView.java:136-142 | the scene listener is removed, a no-op when absent |
| ChildViews.ChildView.AddPulseListener | mvvm4fx-core/src/main/java/com/techsenger/mvvm4fx/core/AbstractChildView.java:144-151 | a fresh callback capturing the scene becomes the timing's callback and is registered with the scene |
| ChildViews.ChildView.CheckPulseListener | mvvm4fx-core/src/main/java/com/techsenger/mvvm4fx/core/AbstractChildView.java:153-157 | removes the timing's callback iff its list is empty |
| ChildViews.ChildView.RemovePulseListener | mvvm4fx-core/src/main/java/com/techsenger/mvvm4fx/core/AbstractChildView.java:159-165 | removes the callback from the given scene and clears the field; throws with no scene; no-op with no callback |
| ChildViews.ChildView.CallListeners | mvvm4fx-core/src/main/java/com/techsenger/mvvm4fx/core/AbstractChildView.java:190-198 | changes the fields as ListenersCalled says: the list becomes Survivors of itself and the listeners called are recorded in order; reports whether none threw |
| ChildViews.ChildView.OnPulse | mvvm4fx-core/src/main/java/com/techsenger/mvvm4fx/core/AbstractChildView.java:145-148 | a pulse running a callback changes the fields as Pulse says and reports whether a listener threw, in which case the check of the callback is skipped |
| ChildViews.ChildView.OnSceneChanged | mvvm4fx-core/src/main/java/com/techsenger/mvvm4fx/core/AbstractChildView.java:115-125 | a scene change notifies the scene listener as SceneChanged says |

## Left out

- Logging is not modelled. This covers every `logger` call and the `getViewModel().getKey()` and `descriptor.getLogPrefix()` calls in log messages. They are taken to return normally, so their exceptions (AbstractView.java:57, :80) are not modelled.
- Host toolkit behaviour is assumed, not modelled:
  - JavaFX's property machinery hands an exception thrown by a change listener to the thread's uncaught-exception handler. The model records it as an `Uncaught` event, and `set()` returns normally.
  - A change listener fires only when the value actually changes.
- ViewModels.RequestHistory: the provider always returns a non-null history and never throws. `provide()` returning null, so that the later `restoreData` call throws, is not modelled. Neither is `provide()` throwing.
- The descriptor and `AbstractComponentViewModel` are not part of this model. The descriptor's state property is modelled as a plain value with no listener. Any listener on it is not modelled.
- A `java.lang.Error` (not an `Exception`) thrown by a view hook, a history call or the state listener is not modelled. The `catch (Exception ex)` blocks (AbstractView.java:59, :82; AbstractComponentView.java:60, :83) and JavaFX's listener dispatch do not catch it, so it propagates to the caller of initialize(), deinitialize() or `set()`.
- Each modelled call has at most one throwing hook, `fault`. A history call's exception goes to the uncaught-exception handler and does not end the view's template, so the source can meet two throwing hooks in one deinitialize() (say saveData and then postDeinitialize). Such runs are not modelled.
- Hooks are modelled only as recorded calls that may throw. This covers the view hooks, `postHistoryRestore()`/`preHistorySave()`, the history operations and `onLayoutPulse()` (which also answers true or false). Anything else a hook might do is not modelled: changing the policy or the provider, writing the state, or re-entering initialize()/deinitialize(). Views.PolicyReadAtTransition and Views.DeinitializeSaves, which take the policy read at the write as the one in force, rely on this.
- Threading is not modelled. JavaFX calls happen on one application thread.
- ViewModels.Listener, ViewModels.Restored, ViewModels.Saved: a null history policy makes the `switch` (AbstractViewModel.java:54, :79) throw a NullPointerException; the Dafny policy type has no null, so that path and the unreachable `AssertionError` default branches are not modelled.
- ChildViews.Add, ChildViews.Remove: a null timing makes the `switch` (AbstractChildView.java:53, :85) throw a NullPointerException; the Dafny timing type has no null, so that path and the `AssertionError` default branches are not modelled.
- A listener that adds or removes pulse listeners from inside `onLayoutPulse()` is not modelled (a ConcurrentModificationException in the source).
- ChildViews.ChildView.CallListeners: the iterator loop edits a copy of the list value, which is stored back once at the end. Because of the point above, no listener can see the list in between.
- How a JavaFX scene runs its pulse listeners, and when, is not modelled. `OnPulse` runs any one callback. An exception from `onLayoutPulse()` leaves the callback; `OnPulse` reports it, and where JavaFX sends it next is not modelled.
- The view-tree traversal, AbstractParentView, the interfaces, and the demo and sampler modules are outside this model.
- Views.DeinitializePostThrows states only the last two events of the trace. The full trace is that of DeinitializeInOrder followed by the log.

## Findings

| source | as written | input that shows it | evidently intended | confidence | as-written member | corrected member |
|---|---|---|---|---|---|---|
| mvvm4fx-core/src/main/java/com/techsenger/mvvm4fx/core/AbstractChildView.java:84 | removeLayoutPulseListener reads the current scene and hands it to removePre/PostLayoutPulseListener, which calls a method on it (:161, :184) while a callback is installed | add a BEFORE listener while in scene 7; the view leaves its scene (scene null); remove that listener | detach the callback from the scene it was added to, without throwing | not executed; the throw is certain as written, the intent is inferred | ChildViews.RemoveAfterSceneLostThrows | ChildViews.RemoveCorrectedDetaches |
| mvvm4fx-core/src/main/java/com/techsenger/mvvm4fx/core/AbstractChildView.java:84 | the callback is removed from the current scene, not the one it was added to, and the field is then cleared | add a BEFORE listener while in scene 7; the view moves to scene 8; remove that listener | remove the registration from scene 7 | not executed; medium | ChildViews.RemoveAfterSceneMovedLeaks | ChildViews.RemoveCorrectedDetaches |
| mvvm4fx-core/src/main/java/com/techsenger/mvvm4fx/core/AbstractChildView.java:118 | the scene listener calls addPre/PostLayoutPulseListener (:118, :121) for every non-empty list, and that helper overwrites the timing's callback field (:145) even when a callback is still installed and registered | add a BEFORE listener while in scene 7; the view leaves its scene; add an AFTER listener; remove the BEFORE listener; add another BEFORE listener; the view moves to scene 8 | remove the installed callback from the scene it captured before installing the new one | not executed; medium | ChildViews.SceneListenerOverwritesCallback | ChildViews.SceneChangedCorrectedDetaches |
| mvvm4fx-core/src/main/java/com/techsenger/mvvm4fx/core/AbstractChildView.java:60 | addLayoutPulseListener calls addPre/PostLayoutPulseListener (:60, :72) for the first listener of a timing, and that helper overwrites the callback field (:145). A removal made while the scene listener is added (:88-92, :96-100) only checks the scene listener, so a callback can still be installed and registered at that point | add a BEFORE listener while in scene 7; the view leaves its scene; add an AFTER listener; remove the BEFORE listener, then the AFTER listener; the view moves to scene 8; add another BEFORE listener | remove the installed callback from the scene it captured before installing the new one | not executed; medium | ChildViews.AddOverwritesCallback | ChildViews.AddCorrectedDetaches |

The corrected removal is `ChildViews.RemoveCorrected`. It removes the callback using the scene that the callback captured. `ChildViews.RemoveAgrees` shows it equals the source's removal whenever the scene has not changed. The detachment properties are stated on the corrected removal. The `ChildView` class itself keeps the source's behaviour.

The corrected scene listener is `ChildViews.SceneChangedCorrected`. Through `ChildViews.Install`, it first removes the callback still installed for a timing from the scene it captured. `ChildViews.SceneChangedCorrectedAgrees` shows it equals the source's scene listener whenever no such callback is left. The `ChildView` class keeps the source's scene listener. The same correction on the addition path is `ChildViews.AddCorrected`, which installs through `ChildViews.Install` too; `ChildViews.AddCorrectedAgrees` shows it equals the source's addition whenever no callback is left installed for the timing.
