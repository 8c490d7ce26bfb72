/** AbstractView: the constructor that marks the view model CONSTRUCTED, and the
    initialize()/deinitialize() template methods that run the view's hooks in a fixed order
    and advance the view model's state one phase, logging every exception they catch. */
module Views {
  import opened Components
  import opened ViewModels

  /** The hooks initialize() runs before writing INITIALIZED, in order. */
  const InitHooks: seq<ViewHook> := [PreInitialize, Build, Bind, AddListeners, AddHandlers]

  /** The hooks deinitialize() runs before writing DEINITIALIZED, in order. */
  const DeinitHooks: seq<ViewHook> := [PreDeinitialize, RemoveHandlers, RemoveListeners, Unbind, Unbuild]

  /** The events of invoking every one of hooks, in order. */
  function HookEvents(hooks: seq<ViewHook>): (r: seq<Event>)
    ensures |r| == |hooks|
    ensures forall i :: 0 <= i < |hooks| ==> r[i] == ViewCalled(hooks[i])
  {
    if hooks == [] then [] else [ViewCalled(hooks[0])] + HookEvents(hooks[1..])
  }

  /** Whether fault names one of hooks. */
  predicate ViewFault(hooks: seq<ViewHook>, fault: Option<Hook>)
  {
    fault.Some? && fault.value.OfView? && fault.value.view in hooks
  }

  /** Invoking hooks in turn until the one fault names throws: the events of the calls
      made, the throwing one included, and whether every call returned normally. */
  function RunHooks(hooks: seq<ViewHook>, fault: Option<Hook>): (r: (seq<Event>, bool))
    ensures r.1 <==> !ViewFault(hooks, fault)
    ensures r.1 ==> r.0 == HookEvents(hooks)
    ensures forall e | e in r.0 :: e.ViewCalled?
  {
    if hooks == [] then ([], true)
    else if fault == Some(OfView(hooks[0])) then ([ViewCalled(hooks[0])], false)
    else
      var rest := RunHooks(hooks[1..], fault);
      ([ViewCalled(hooks[0])] + rest.0, rest.1)
  }

  /** When the hook at position k throws and none before it has its name, the calls stop
      right after it. */
  lemma {:induction false} RunHooksStops(hooks: seq<ViewHook>, fault: Option<Hook>, k: nat)
    requires k < |hooks| && fault == Some(OfView(hooks[k])) && hooks[k] !in hooks[..k]
    ensures RunHooks(hooks, fault) == (HookEvents(hooks[..k + 1]), false)
  {
    if k > 0 {
      assert hooks[0] in hooks[..k];
      var tail := hooks[1..];
      assert tail[..k - 1] == hooks[1..k];
      assert hooks[k] !in tail[..k - 1] by {
        assert forall x | x in hooks[1..k] :: x in hooks[..k];
      }
      RunHooksStops(tail, fault, k - 1);
      assert hooks[..k + 1] == [hooks[0]] + tail[..k];
      assert HookEvents(hooks[..k + 1]) == [ViewCalled(hooks[0])] + HookEvents(tail[..k]);
    } else {
      assert hooks[..k + 1] == [hooks[0]];
      assert HookEvents([hooks[0]]) == [ViewCalled(hooks[0])] + HookEvents([]);
      assert HookEvents([]) == [];
      assert [ViewCalled(hooks[0])] + [] == [ViewCalled(hooks[0])];
      assert HookEvents(hooks[..k + 1]) == [ViewCalled(hooks[0])];
      assert RunHooks(hooks, fault) == ([ViewCalled(hooks[0])], false);
    }
  }

  /** One more hook of a phase: skipped once a hook has thrown, otherwise invoked. */
  function Continue(r: (seq<Event>, bool), h: ViewHook, fault: Option<Hook>): (seq<Event>, bool)
  {
    if !r.1 then r else (r.0 + [ViewCalled(h)], fault != Some(OfView(h)))
  }

  /** Running one hook more is one more step of Continue. */
  lemma {:induction false} RunHooksSnoc(hooks: seq<ViewHook>, h: ViewHook, fault: Option<Hook>)
    ensures RunHooks(hooks + [h], fault) == Continue(RunHooks(hooks, fault), h, fault)
    decreases |hooks|
  {
    if hooks == [] {
      assert hooks + [h] == [h];
      assert [h][1..] == [];
      assert RunHooks([], fault) == ([], true);
      assert [ViewCalled(h)] + [] == [] + [ViewCalled(h)] == [ViewCalled(h)];
    } else {
      assert (hooks + [h])[0] == hooks[0];
      assert (hooks + [h])[1..] == hooks[1..] + [h];
      RunHooksSnoc(hooks[1..], h, fault);
      var rest := RunHooks(hooks[1..], fault);
      if fault != Some(OfView(hooks[0])) && rest.1 {
        assert [ViewCalled(hooks[0])] + (rest.0 + [ViewCalled(h)]) == [ViewCalled(hooks[0])] + rest.0 + [ViewCalled(h)];
      }
    }
  }

  /** A phase of five hooks, as five steps of Continue. */
  lemma RunFiveHooks(hooks: seq<ViewHook>, fault: Option<Hook>)
    requires |hooks| == 5
    ensures RunHooks(hooks, fault)
      == Continue(Continue(Continue(Continue(Continue(([], true), hooks[0], fault), hooks[1], fault),
           hooks[2], fault), hooks[3], fault), hooks[4], fault)
  {
    var r1 := Continue(([], true), hooks[0], fault);
    assert RunHooks(hooks[..1], fault) == r1 by {
      RunHooksSnoc([], hooks[0], fault);
      assert [] + [hooks[0]] == hooks[..1];
      assert RunHooks([], fault) == ([], true);
    }
    var r2 := Continue(r1, hooks[1], fault);
    assert RunHooks(hooks[..2], fault) == r2 by {
      RunHooksSnoc(hooks[..1], hooks[1], fault);
      assert hooks[..1] + [hooks[1]] == hooks[..2];
    }
    var r3 := Continue(r2, hooks[2], fault);
    assert RunHooks(hooks[..3], fault) == r3 by {
      RunHooksSnoc(hooks[..2], hooks[2], fault);
      assert hooks[..2] + [hooks[2]] == hooks[..3];
    }
    var r4 := Continue(r3, hooks[3], fault);
    assert RunHooks(hooks[..4], fault) == r4 by {
      RunHooksSnoc(hooks[..3], hooks[3], fault);
      assert hooks[..3] + [hooks[3]] == hooks[..4];
    }
    RunHooksSnoc(hooks[..4], hooks[4], fault);
    assert hooks[..4] + [hooks[4]] == hooks;
  }

  /** The shared body of initialize() and deinitialize(): from state expected, run hooks,
      write state target (which fires the view model's listener), then run last; any
      exception is caught and logged, and a wrong state is an IllegalStateException. */
  function Drive(m: ModelState, expected: ComponentState, target: ComponentState,
                 hooks: seq<ViewHook>, last: ViewHook, fault: Option<Hook>): (r: ModelState)
    ensures r.policy == m.policy && r.provider == m.provider && m.trace <= r.trace
  {
    if m.state != expected then Emit(m, Logged(IllegalState))
    else
      var (calls, ok) := RunHooks(hooks, fault);
      var m1 := Append(m, calls);
      if !ok then Emit(m1, Logged(HookThrew(fault.value)))
      else
        var m2 := Emit(WriteState(m1, target, fault), ViewCalled(last));
        if fault == Some(OfView(last)) then Emit(m2, Logged(HookThrew(OfView(last)))) else m2
  }

  /** The constructor: the view model's state is set to CONSTRUCTED, firing its listener
      when the state changes. */
  function AfterConstruct(m: ModelState, fault: Option<Hook>): (r: ModelState)
    ensures r.state == Constructed && r.policy == m.policy && r.provider == m.provider
    ensures m.state != Constructed ==>
      r.trace == m.trace + [StateSet(Constructed)] + Reaction(Emit(m.(state := Constructed), StateSet(Constructed)), fault)
  {
    WriteState(m, Constructed, fault)
  }

  /** initialize(). */
  function AfterInitialize(m: ModelState, fault: Option<Hook>): (r: ModelState)
    ensures r.policy == m.policy && r.provider == m.provider && m.trace <= r.trace
  {
    Drive(m, Constructed, Initialized, InitHooks, PostInitialize, fault)
  }

  /** deinitialize(). */
  function AfterDeinitialize(m: ModelState, fault: Option<Hook>): (r: ModelState)
    ensures r.policy == m.policy && r.provider == m.provider && m.trace <= r.trace
  {
    Drive(m, Initialized, Deinitialized, DeinitHooks, PostDeinitialize, fault)
  }

  // ---------------------------------------------------------------------------------
  // What initialize() and deinitialize() promise.

  /** From any state but the expected one, initialize() and deinitialize() only log the
      IllegalStateException. */
  lemma WrongStateOnlyLogs(m: ModelState, fault: Option<Hook>)
    ensures m.state != Constructed ==> AfterInitialize(m, fault) == Emit(m, Logged(IllegalState))
    ensures m.state != Initialized ==> AfterDeinitialize(m, fault) == Emit(m, Logged(IllegalState))
  {
  }

  /** Without a fault, initialize() runs the five hooks, writes INITIALIZED (on which the
      view model's listener does nothing) and then runs postInitialize. */
  lemma InitializeInOrder(m: ModelState)
    requires m.state == Constructed
    ensures AfterInitialize(m, None).state == Initialized
    ensures AfterInitialize(m, None).trace
      == m.trace + HookEvents(InitHooks) + [StateSet(Initialized), ViewCalled(PostInitialize)]
  {
  }

  /** A hook of initialize() that throws before the write leaves the state CONSTRUCTED:
      the hooks up to it ran, and the exception is logged. */
  lemma InitializeStops(m: ModelState, k: nat)
    requires m.state == Constructed && k < |InitHooks|
    ensures var fault := Some(OfView(InitHooks[k]));
      AfterInitialize(m, fault) == Append(m, HookEvents(InitHooks[..k + 1]) + [Logged(HookThrew(fault.value))])
  {
    RunHooksStops(InitHooks, Some(OfView(InitHooks[k])), k);
  }

  /** A throwing postInitialize comes after the write: the state is already INITIALIZED,
      and the exception is logged. */
  lemma InitializePostThrows(m: ModelState)
    requires m.state == Constructed
    ensures var r := AfterInitialize(m, Some(OfView(PostInitialize)));
      && r.state == Initialized
      && r.trace == m.trace + HookEvents(InitHooks)
        + [StateSet(Initialized), ViewCalled(PostInitialize), Logged(HookThrew(OfView(PostInitialize)))]
  {
    var fault := Some(OfView(PostInitialize));
    DriveLastThrows(m, Constructed, Initialized, InitHooks, PostInitialize);
    var m1 := Append(m, HookEvents(InitHooks));
    var w := Emit(m1.(state := Initialized), StateSet(Initialized));
    assert WriteState(m1, Initialized, fault) == Listener(w, fault) == w;
  }

  /** When only the last hook throws, the template runs every hook, writes the target state,
      calls the last hook and logs its exception. */
  lemma DriveLastThrows(m: ModelState, expected: ComponentState, target: ComponentState,
                        hooks: seq<ViewHook>, last: ViewHook)
    requires m.state == expected && last !in hooks
    ensures var fault := Some(OfView(last));
      Drive(m, expected, target, hooks, last, fault)
        == Emit(Emit(WriteState(Append(m, HookEvents(hooks)), target, fault), ViewCalled(last)),
                Logged(HookThrew(OfView(last))))
  {
  }

  /** Without a fault, deinitialize() runs its five hooks, writes DEINITIALIZED (on which
      the view model saves its history) and then runs postDeinitialize: the saves come
      after unbuild and before postDeinitialize. */
  lemma DeinitializeInOrder(m: ModelState)
    requires m.state == Initialized
    ensures var m1 := Emit(Append(m, HookEvents(DeinitHooks)).(state := Deinitialized), StateSet(Deinitialized));
      && AfterDeinitialize(m, None).state == Deinitialized
      && AfterDeinitialize(m, None).trace == m1.trace + Reaction(m1, None) + [ViewCalled(PostDeinitialize)]
  {
  }

  /** A hook of deinitialize() that throws before the write leaves the state INITIALIZED. */
  lemma DeinitializeStops(m: ModelState, k: nat)
    requires m.state == Initialized && k < |DeinitHooks|
    ensures var fault := Some(OfView(DeinitHooks[k]));
      AfterDeinitialize(m, fault) == Append(m, HookEvents(DeinitHooks[..k + 1]) + [Logged(HookThrew(fault.value))])
  {
    RunHooksStops(DeinitHooks, Some(OfView(DeinitHooks[k])), k);
  }

  /** A throwing postDeinitialize comes after the write: the state is already
      DEINITIALIZED, and the exception is logged last. */
  lemma DeinitializePostThrows(m: ModelState)
    requires m.state == Initialized
    ensures var r := AfterDeinitialize(m, Some(OfView(PostDeinitialize)));
      && r.state == Deinitialized
      && r.trace[|r.trace| - 2..] == [ViewCalled(PostDeinitialize), Logged(HookThrew(OfView(PostDeinitialize)))]
  {
  }

  /** With a history at hand and no fault, deinitialize() under a policy other than NONE
      saves exactly the parts of the policy in force at the call, between unbuild and
      postDeinitialize. */
  lemma DeinitializeSaves(m: ModelState)
    requires m.state == Initialized && m.policy != NoHistory && Target(m).Some?
    ensures AfterDeinitialize(m, None).trace
      == m.trace + HookEvents(DeinitHooks) + [StateSet(Deinitialized), ModelCalled(PreHistorySave)]
        + Ask(m) + HistoryCalls(Saved(m.policy), Target(m).value) + [ViewCalled(PostDeinitialize)]
  {
    var m1 := Emit(Append(m, HookEvents(DeinitHooks)).(state := Deinitialized), StateSet(Deinitialized));
    DeinitializeInOrder(m);
    SavesOnDeinitialized(m, m1);
    var saves := [ModelCalled(PreHistorySave)] + Ask(m) + HistoryCalls(Saved(m.policy), Target(m).value);
    assert m1.trace == m.trace + HookEvents(DeinitHooks) + [StateSet(Deinitialized)];
  }

  /** The listener's reaction on the DEINITIALIZED write of deinitialize(), which changes
      only the state and the events of the view model m. */
  lemma SavesOnDeinitialized(m: ModelState, m1: ModelState)
    requires m.policy != NoHistory && Target(m).Some? && m1.state == Deinitialized
    requires m1 == m.(state := m1.state, trace := m1.trace)
    ensures Reaction(m1, None)
      == [ModelCalled(PreHistorySave)] + Ask(m) + HistoryCalls(Saved(m.policy), Target(m).value)
  {
    ListenerTable(m1);
    assert Ask(m1) == Ask(m) && Target(m1) == Target(m);
  }

  /** The constructor of a view over a view model that is still UNCONSTRUCTED and whose
      policy is not NONE restores the history: the provider is asked when nothing is
      cached, the restores of the policy run, then postHistoryRestore. */
  lemma ConstructRestores(m: ModelState)
    requires m.state == Unconstructed && m.policy != NoHistory && Target(m).Some?
    ensures AfterConstruct(m, None).trace
      == m.trace + [StateSet(Constructed)] + Ask(m) + HistoryCalls(Restored(m.policy), Target(m).value)
        + [ModelCalled(PostHistoryRestore)]
  {
    var m1 := Emit(m.(state := Constructed), StateSet(Constructed));
    ListenerTable(m1);
    assert Ask(m1) == Ask(m) && Target(m1) == Target(m);
  }

  /** Each call moves the state forward by at most one phase, and only along
      CONSTRUCTED, INITIALIZED, DEINITIALIZED. */
  lemma OneStepForward(m: ModelState, fault: Option<Hook>)
    ensures var r := AfterInitialize(m, fault);
      r.state == m.state || (m.state == Constructed && r.state == Initialized)
    ensures var r := AfterDeinitialize(m, fault);
      r.state == m.state || (m.state == Initialized && r.state == Deinitialized)
  {
  }

  /** initialize(), deinitialize() and the constructor keep the view model's history cache
      invariant. */
  lemma LifecycleKeepsInv(m: ModelState, fault: Option<Hook>)
    requires Inv(m)
    ensures Inv(AfterConstruct(m, fault))
    ensures Inv(AfterInitialize(m, fault)) && Inv(AfterDeinitialize(m, fault))
  {
    WriteStateFacts(m, Constructed, fault);
    DriveKeepsInv(m, Constructed, Initialized, InitHooks, PostInitialize, fault);
    DriveKeepsInv(m, Initialized, Deinitialized, DeinitHooks, PostDeinitialize, fault);
  }

  lemma DriveKeepsInv(m: ModelState, expected: ComponentState, target: ComponentState,
                      hooks: seq<ViewHook>, last: ViewHook, fault: Option<Hook>)
    requires Inv(m)
    ensures Inv(Drive(m, expected, target, hooks, last, fault))
  {
    if m.state != expected {
      PlainAppend(m, [Logged(IllegalState)]);
    } else {
      var (calls, ok) := RunHooks(hooks, fault);
      RunHooksPlain(hooks, fault);
      PlainAppend(m, calls);
      var m1 := Append(m, calls);
      if !ok {
        PlainAppend(m1, [Logged(HookThrew(fault.value))]);
      } else {
        WriteAndLastKeepInv(m1, target, last, fault);
      }
    }
  }

  lemma WriteAndLastKeepInv(m: ModelState, target: ComponentState, last: ViewHook, fault: Option<Hook>)
    requires Inv(m)
    ensures var m2 := Emit(WriteState(m, target, fault), ViewCalled(last));
      Inv(m2) && Inv(Emit(m2, Logged(HookThrew(OfView(last)))))
  {
    WriteStateFacts(m, target, fault);
    var m1 := WriteState(m, target, fault);
    PlainAppend(m1, [ViewCalled(last)]);
    PlainAppend(Emit(m1, ViewCalled(last)), [Logged(HookThrew(OfView(last)))]);
  }

  /** The hooks' events neither ask the provider nor call the history, and all of them
      are lifecycle events. */
  lemma RunHooksPlain(hooks: seq<ViewHook>, fault: Option<Hook>)
    ensures Plain(RunHooks(hooks, fault).0)
    ensures LifecycleEvents(RunHooks(hooks, fault).0) == RunHooks(hooks, fault).0
  {
    LifecycleEventsOnly(RunHooks(hooks, fault).0);
  }

  // ---------------------------------------------------------------------------------
  // Runs: any sequence of lifecycle calls and property writes after construction.

  /** One call on a constructed view and its view model. */
  datatype Step =
    | Initialize(fault: Option<Hook>)
    | Deinitialize(fault: Option<Hook>)
    | SetPolicy(policy: HistoryPolicy)
    | SetProvider(provider: Option<HistoryId>)

  function Apply(m: ModelState, s: Step): ModelState
  {
    match s
    case Initialize(f) => AfterInitialize(m, f)
    case Deinitialize(f) => AfterDeinitialize(m, f)
    case SetPolicy(p) => m.(policy := p)
    case SetProvider(p) => m.(provider := p)
  }

  function Run(m: ModelState, steps: seq<Step>): ModelState
    decreases |steps|
  {
    if steps == [] then m else Run(Apply(m, steps[0]), steps[1..])
  }

  /** Over any run the state never moves backward, and advances by at most one phase per
      lifecycle call. */
  lemma {:induction false} RunForward(m: ModelState, steps: seq<Step>)
    ensures Rank(m.state) <= Rank(Run(m, steps).state) <= Rank(m.state) + |steps|
    decreases |steps|
  {
    if steps != [] {
      if steps[0].Initialize? || steps[0].Deinitialize? {
        OneStepForward(m, steps[0].fault);
      }
      RunForward(Apply(m, steps[0]), steps[1..]);
    }
  }

  /** DEINITIALIZED is terminal: no run leaves it. */
  lemma {:induction false} DeinitializedTerminal(m: ModelState, steps: seq<Step>)
    requires m.state == Deinitialized
    ensures Run(m, steps).state == Deinitialized
    decreases |steps|
  {
    if steps != [] {
      DeinitializedTerminal(Apply(m, steps[0]), steps[1..]);
    }
  }

  /** Over any run the cache invariant holds, so the provider is consulted at most once. */
  lemma {:induction false} RunKeepsInv(m: ModelState, steps: seq<Step>)
    requires Inv(m)
    ensures Inv(Run(m, steps)) && Asked(Run(m, steps).trace) <= 1
    decreases |steps|
  {
    if steps != [] {
      match steps[0] {
        case Initialize(f) => LifecycleKeepsInv(m, f);
        case Deinitialize(f) => LifecycleKeepsInv(m, f);
        case SetPolicy(_) =>
        case SetProvider(_) =>
      }
      RunKeepsInv(Apply(m, steps[0]), steps[1..]);
    }
  }

  /** A view's whole life, from a new view model through the constructor (whichever hook
      throws during it, cfault) and any run, consults the provider at most once. */
  lemma ProviderAskedAtMostOnce(setup: seq<Step>, cfault: Option<Hook>, steps: seq<Step>)
    requires forall s | s in setup :: s.SetPolicy? || s.SetProvider?
    ensures var m := Run(AfterConstruct(Run(Initial, setup), cfault), steps);
      Asked(m.trace) <= 1
  {
    InitialInv();
    RunKeepsInv(Initial, setup);
    LifecycleKeepsInv(Run(Initial, setup), cfault);
    RunKeepsInv(AfterConstruct(Run(Initial, setup), cfault), steps);
  }

  /** The policy is read when DEINITIALIZED is written: a policy set after initialization
      decides what is saved. */
  lemma PolicyReadAtTransition(m: ModelState, p: HistoryPolicy)
    requires m.state == Initialized && p != NoHistory && Target(m).Some?
    ensures var r := Run(m, [SetPolicy(p), Deinitialize(None)]);
      r.trace == m.trace + HookEvents(DeinitHooks) + [StateSet(Deinitialized), ModelCalled(PreHistorySave)]
        + Ask(m) + HistoryCalls(Saved(p), Target(m).value) + [ViewCalled(PostDeinitialize)]
  {
    DeinitializeSaves(m.(policy := p));
    assert Run(m, [SetPolicy(p), Deinitialize(None)]) == AfterDeinitialize(m.(policy := p), None) by {
      assert [SetPolicy(p), Deinitialize(None)][1..] == [Deinitialize(None)];
      assert [Deinitialize(None)][1..] == [];
    }
  }

  class View {
    const viewModel: ViewModel

    /** The constructor: keeps the view model and sets its state to CONSTRUCTED. */
    constructor (vm: ViewModel, fault: Option<Hook>)
      modifies vm
      ensures viewModel == vm
      ensures vm.Model() == AfterConstruct(old(vm.Model()), fault)
    {
      viewModel := vm;
      new;
      vm.SetState(Constructed, fault);
    }

    /** Invokes a hook of the view, which throws when fault names it. */
    method Call(h: ViewHook, fault: Option<Hook>) returns (ok: bool)
      modifies viewModel
      ensures viewModel.Model() == Emit(old(viewModel.Model()), ViewCalled(h))
      ensures ok == (fault != Some(OfView(h)))
    {
      viewModel.trace := viewModel.trace + [ViewCalled(h)];
      ok := fault != Some(OfView(h));
    }

    /** The next statement of a try block: hook h is invoked unless an earlier one threw
        (ok false). r is what the hooks so far did, from state m0. */
    method CallUnlessThrown(ghost m0: ModelState, ghost r: (seq<Event>, bool), ok: bool, h: ViewHook, fault: Option<Hook>)
      returns (ok': bool)
      requires viewModel.Model() == Append(m0, r.0) && ok == r.1
      modifies viewModel
      ensures viewModel.Model() == Append(m0, Continue(r, h, fault).0) && ok' == Continue(r, h, fault).1
    {
      ok' := ok;
      if ok {
        ok' := Call(h, fault);
        assert m0.trace + r.0 + [ViewCalled(h)] == m0.trace + (r.0 + [ViewCalled(h)]);
      }
    }

    /** The catch block of initialize() and deinitialize(): the exception is logged. */
    method Log(e: Error)
      modifies viewModel
      ensures viewModel.Model() == Emit(old(viewModel.Model()), Logged(e))
    {
      viewModel.trace := viewModel.trace + [Logged(e)];
    }

    /** initialize(). */
    method Initialize(fault: Option<Hook>)
      modifies viewModel
      ensures viewModel.Model() == AfterInitialize(old(viewModel.Model()), fault)
    {
      if viewModel.state != Constructed {
        Log(IllegalState);
        return;
      }
      var ok := InitHooksPhase(fault);
      if !ok {
        Log(HookThrew(fault.value));
        return;
      }
      viewModel.SetState(Initialized, fault);
      ok := Call(PostInitialize, fault);
      if !ok {
        Log(HookThrew(OfView(PostInitialize)));
      }
    }

    /** The hook calls of initialize() before the state write, stopping at a throw. */
    method InitHooksPhase(fault: Option<Hook>) returns (ok: bool)
      modifies viewModel
      ensures viewModel.Model() == Append(old(viewModel.Model()), RunHooks(InitHooks, fault).0)
      ensures ok == RunHooks(InitHooks, fault).1
    {
      ghost var m0 := viewModel.Model();
      RunFiveHooks(InitHooks, fault);
      ghost var r := ([], true);
      ok := true;
      ok := CallUnlessThrown(m0, r, ok, PreInitialize, fault);
      r := Continue(r, PreInitialize, fault);
      ok := CallUnlessThrown(m0, r, ok, Build, fault);
      r := Continue(r, Build, fault);
      ok := CallUnlessThrown(m0, r, ok, Bind, fault);
      r := Continue(r, Bind, fault);
      ok := CallUnlessThrown(m0, r, ok, AddListeners, fault);
      r := Continue(r, AddListeners, fault);
      ok := CallUnlessThrown(m0, r, ok, AddHandlers, fault);
      r := Continue(r, AddHandlers, fault);
    }



    /** deinitialize(). */
    method Deinitialize(fault: Option<Hook>)
      modifies viewModel
      ensures viewModel.Model() == AfterDeinitialize(old(viewModel.Model()), fault)
    {
      if viewModel.state != Initialized {
        Log(IllegalState);
        return;
      }
      var ok := DeinitHooksPhase(fault);
      if !ok {
        Log(HookThrew(fault.value));
        return;
      }
      viewModel.SetState(Deinitialized, fault);
      ok := Call(PostDeinitialize, fault);
      if !ok {
        Log(HookThrew(OfView(PostDeinitialize)));
      }
    }

    /** The hook calls of deinitialize() before the state write, stopping at a throw. */
    method DeinitHooksPhase(fault: Option<Hook>) returns (ok: bool)
      modifies viewModel
      ensures viewModel.Model() == Append(old(viewModel.Model()), RunHooks(DeinitHooks, fault).0)
      ensures ok == RunHooks(DeinitHooks, fault).1
    {
      ghost var m0 := viewModel.Model();
      RunFiveHooks(DeinitHooks, fault);
      ghost var r := ([], true);
      ok := true;
      ok := CallUnlessThrown(m0, r, ok, PreDeinitialize, fault);
      r := Continue(r, PreDeinitialize, fault);
      ok := CallUnlessThrown(m0, r, ok, RemoveHandlers, fault);
      r := Continue(r, RemoveHandlers, fault);
      ok := CallUnlessThrown(m0, r, ok, RemoveListeners, fault);
      r := Continue(r, RemoveListeners, fault);
      ok := CallUnlessThrown(m0, r, ok, Unbind, fault);
      r := Continue(r, Unbind, fault);
      ok := CallUnlessThrown(m0, r, ok, Unbuild, fault);
      r := Continue(r, Unbuild, fault);
    }


  }
}
