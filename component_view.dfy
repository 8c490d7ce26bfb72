/** AbstractComponentView: the same constructor and initialize()/deinitialize() template
    as AbstractView, but the state it reads and writes is the one held by the view model's
    descriptor. */
module ComponentViews {
  import opened Components
  import opened ViewModels
  import opened Views

  /** Value of a descriptor's state property, with the trace of what the view did. */
  datatype DescriptorState = DescriptorState(state: ComponentState, trace: seq<Event>)

  function Record(d: DescriptorState, e: Event): DescriptorState
  {
    d.(trace := d.trace + [e])
  }

  /** descriptor.stateWrapper().set(s). */
  function WriteDescriptor(d: DescriptorState, s: ComponentState): DescriptorState
  {
    Record(d.(state := s), StateSet(s))
  }

  /** The shared body of initialize() and deinitialize() over the descriptor's state. */
  function DriveDescriptor(d: DescriptorState, expected: ComponentState, target: ComponentState,
                           hooks: seq<ViewHook>, last: ViewHook, fault: Option<Hook>): (r: DescriptorState)
    ensures d.trace <= r.trace
  {
    if d.state != expected then Record(d, Logged(IllegalState))
    else
      var (calls, ok) := RunHooks(hooks, fault);
      var d1 := d.(trace := d.trace + calls);
      if !ok then Record(d1, Logged(HookThrew(fault.value)))
      else
        var d2 := Record(WriteDescriptor(d1, target), ViewCalled(last));
        if fault == Some(OfView(last)) then Record(d2, Logged(HookThrew(OfView(last)))) else d2
  }

  function ComponentConstruct(d: DescriptorState): (r: DescriptorState)
    ensures r.state == Constructed && r.trace == d.trace + [StateSet(Constructed)]
  {
    WriteDescriptor(d, Constructed)
  }

  function ComponentInitialize(d: DescriptorState, fault: Option<Hook>): (r: DescriptorState)
    ensures r.state == Initialized || r.state == d.state
    ensures r.state != d.state <==> d.state == Constructed && !ViewFault(InitHooks, fault)
    ensures d.state != Constructed ==> r.trace == d.trace + [Logged(IllegalState)]
  {
    DriveDescriptor(d, Constructed, Initialized, InitHooks, PostInitialize, fault)
  }

  function ComponentDeinitialize(d: DescriptorState, fault: Option<Hook>): (r: DescriptorState)
    ensures r.state == Deinitialized || r.state == d.state
    ensures r.state != d.state <==> d.state == Initialized && !ViewFault(DeinitHooks, fault)
    ensures d.state != Initialized ==> r.trace == d.trace + [Logged(IllegalState)]
  {
    DriveDescriptor(d, Initialized, Deinitialized, DeinitHooks, PostDeinitialize, fault)
  }

  /** What a component view and a plain view share: the state and the lifecycle events. */
  function Project(m: ModelState): DescriptorState
  {
    DescriptorState(m.state, LifecycleEvents(m.trace))
  }

  lemma LifecycleSnoc(t: seq<Event>, e: Event)
    requires IsLifecycleEvent(e)
    ensures LifecycleEvents(t + [e]) == LifecycleEvents(t) + [e]
  {
    assert (t + [e])[..|t|] == t;
  }

  /** For every fault, the component view's constructor, initialize() and deinitialize()
      do to the descriptor exactly what the plain view's do to the view model, up to the
      view model's own history events. */
  lemma MatchesView(m: ModelState, fault: Option<Hook>)
    ensures Project(AfterConstruct(m, fault)) == ComponentConstruct(Project(m))
    ensures Project(AfterInitialize(m, fault)) == ComponentInitialize(Project(m), fault)
    ensures Project(AfterDeinitialize(m, fault)) == ComponentDeinitialize(Project(m), fault)
  {
    WriteStateFacts(m, Constructed, fault);
    DriveMatches(m, Constructed, Initialized, InitHooks, PostInitialize, fault);
    DriveMatches(m, Initialized, Deinitialized, DeinitHooks, PostDeinitialize, fault);
  }

  lemma DriveMatches(m: ModelState, expected: ComponentState, target: ComponentState,
                     hooks: seq<ViewHook>, last: ViewHook, fault: Option<Hook>)
    ensures Project(Drive(m, expected, target, hooks, last, fault))
      == DriveDescriptor(Project(m), expected, target, hooks, last, fault)
  {
    if m.state != expected {
      LifecycleSnoc(m.trace, Logged(IllegalState));
    } else {
      var (calls, ok) := RunHooks(hooks, fault);
      var m1 := Append(m, calls);
      HooksMatch(m, hooks, fault);
      var d1 := Project(m).(trace := Project(m).trace + calls);
      assert Project(m1) == d1;
      if !ok {
        LifecycleSnoc(m1.trace, Logged(HookThrew(fault.value)));
        assert Drive(m, expected, target, hooks, last, fault) == Emit(m1, Logged(HookThrew(fault.value)));
      } else {
        WriteAndLastMatch(m1, target, last, fault);
        var m2 := Emit(WriteState(m1, target, fault), ViewCalled(last));
        assert Drive(m, expected, target, hooks, last, fault)
          == if fault == Some(OfView(last)) then Emit(m2, Logged(HookThrew(OfView(last)))) else m2;
      }
    }
  }

  lemma HooksMatch(m: ModelState, hooks: seq<ViewHook>, fault: Option<Hook>)
    ensures var calls := RunHooks(hooks, fault).0;
      Project(Append(m, calls)) == Project(m).(trace := Project(m).trace + calls)
  {
    RunHooksPlain(hooks, fault);
    LifecycleEventsAppend(m.trace, RunHooks(hooks, fault).0);
  }

  lemma WriteAndLastMatch(m: ModelState, target: ComponentState, last: ViewHook, fault: Option<Hook>)
    ensures var m2 := Emit(WriteState(m, target, fault), ViewCalled(last));
      && Project(m2) == Record(WriteDescriptor(Project(m), target), ViewCalled(last))
      && Project(Emit(m2, Logged(HookThrew(OfView(last)))))
         == Record(Record(WriteDescriptor(Project(m), target), ViewCalled(last)), Logged(HookThrew(OfView(last))))
  {
    WriteStateFacts(m, target, fault);
    var m1 := WriteState(m, target, fault);
    LifecycleSnoc(m1.trace, ViewCalled(last));
    LifecycleSnoc(m1.trace + [ViewCalled(last)], Logged(HookThrew(OfView(last))));
  }

  /** A view model's descriptor: its state property and what the view did through it. */
  class Descriptor {
    var state: ComponentState
    ghost var trace: seq<Event>

    ghost function Model(): DescriptorState
      reads this
    {
      DescriptorState(state, trace)
    }

    constructor ()
      ensures Model() == DescriptorState(Unconstructed, [])
    {
      state := Unconstructed;
      trace := [];
    }

    /** stateWrapper().set(s). */
    method SetState(s: ComponentState)
      modifies this
      ensures Model() == WriteDescriptor(old(Model()), s)
    {
      state := s;
      trace := trace + [StateSet(s)];
    }
  }

  class ComponentView {
    /** The descriptor of the view model, as getDescriptor() returns it. */
    const descriptor: Descriptor

    /** The constructor: sets the descriptor's state to CONSTRUCTED. */
    constructor (d: Descriptor)
      modifies d
      ensures descriptor == d
      ensures d.Model() == ComponentConstruct(old(d.Model()))
    {
      descriptor := d;
      new;
      d.SetState(Constructed);
    }

    method Call(h: ViewHook, fault: Option<Hook>) returns (ok: bool)
      modifies descriptor
      ensures descriptor.Model() == Record(old(descriptor.Model()), ViewCalled(h))
      ensures ok == (fault != Some(OfView(h)))
    {
      descriptor.trace := descriptor.trace + [ViewCalled(h)];
      ok := fault != Some(OfView(h));
    }

    method Log(e: Error)
      modifies descriptor
      ensures descriptor.Model() == Record(old(descriptor.Model()), Logged(e))
    {
      descriptor.trace := descriptor.trace + [Logged(e)];
    }

    /** The next statement of a try block: hook h is invoked unless an earlier one threw. */
    method CallUnlessThrown(ghost d0: DescriptorState, ghost r: (seq<Event>, bool), ok: bool, h: ViewHook,
                            fault: Option<Hook>) returns (ok': bool)
      requires descriptor.Model() == d0.(trace := d0.trace + r.0) && ok == r.1
      modifies descriptor
      ensures descriptor.Model() == d0.(trace := d0.trace + Continue(r, h, fault).0)
      ensures ok' == Continue(r, h, fault).1
    {
      ok' := ok;
      if ok {
        ok' := Call(h, fault);
        assert d0.trace + r.0 + [ViewCalled(h)] == d0.trace + (r.0 + [ViewCalled(h)]);
      }
    }

    /** The hooks of a phase before the state write, stopping at a throw. */
    method HooksPhase(hooks: seq<ViewHook>, fault: Option<Hook>) returns (ok: bool)
      requires hooks == InitHooks || hooks == DeinitHooks
      modifies descriptor
      ensures descriptor.Model() == old(descriptor.Model()).(trace := old(descriptor.trace) + RunHooks(hooks, fault).0)
      ensures ok == RunHooks(hooks, fault).1
    {
      ghost var d0 := descriptor.Model();
      RunFiveHooks(hooks, fault);
      ghost var r := ([], true);
      ok := true;
      if hooks == InitHooks {
        ok := CallUnlessThrown(d0, r, ok, PreInitialize, fault);
        r := Continue(r, PreInitialize, fault);
        ok := CallUnlessThrown(d0, r, ok, Build, fault);
        r := Continue(r, Build, fault);
        ok := CallUnlessThrown(d0, r, ok, Bind, fault);
        r := Continue(r, Bind, fault);
        ok := CallUnlessThrown(d0, r, ok, AddListeners, fault);
        r := Continue(r, AddListeners, fault);
        ok := CallUnlessThrown(d0, r, ok, AddHandlers, fault);
        r := Continue(r, AddHandlers, fault);
      } else {
        ok := CallUnlessThrown(d0, r, ok, PreDeinitialize, fault);
        r := Continue(r, PreDeinitialize, fault);
        ok := CallUnlessThrown(d0, r, ok, RemoveHandlers, fault);
        r := Continue(r, RemoveHandlers, fault);
        ok := CallUnlessThrown(d0, r, ok, RemoveListeners, fault);
        r := Continue(r, RemoveListeners, fault);
        ok := CallUnlessThrown(d0, r, ok, Unbind, fault);
        r := Continue(r, Unbind, fault);
        ok := CallUnlessThrown(d0, r, ok, Unbuild, fault);
        r := Continue(r, Unbuild, fault);
      }
    }

    /** initialize(). */
    method Initialize(fault: Option<Hook>)
      modifies descriptor
      ensures descriptor.Model() == ComponentInitialize(old(descriptor.Model()), fault)
    {
      if descriptor.state != Constructed {
        Log(IllegalState);
        return;
      }
      var ok := HooksPhase(InitHooks, fault);
      if !ok {
        Log(HookThrew(fault.value));
        return;
      }
      descriptor.SetState(Initialized);
      ok := Call(PostInitialize, fault);
      if !ok {
        Log(HookThrew(OfView(PostInitialize)));
      }
    }

    /** deinitialize(). */
    method Deinitialize(fault: Option<Hook>)
      modifies descriptor
      ensures descriptor.Model() == ComponentDeinitialize(old(descriptor.Model()), fault)
    {
      if descriptor.state != Initialized {
        Log(IllegalState);
        return;
      }
      var ok := HooksPhase(DeinitHooks, fault);
      if !ok {
        Log(HookThrew(fault.value));
        return;
      }
      descriptor.SetState(Deinitialized);
      ok := Call(PostDeinitialize, fault);
      if !ok {
        Log(HookThrew(OfView(PostDeinitialize)));
      }
    }
  }
}
