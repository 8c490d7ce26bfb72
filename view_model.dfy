/** AbstractViewModel: the state and history-policy properties, the lazily requested
    history, and the state listener that restores history on CONSTRUCTED and saves it on
    DEINITIALIZED. */
module ViewModels {
  import opened Components

  /** Value of an AbstractViewModel's fields, with the trace of what it and its view did.
      provider == Some(h) stands for a history provider whose provide() returns history h;
      None stands for no provider (null). */
  datatype ModelState = ModelState(
    state: ComponentState,
    policy: HistoryPolicy,
    provider: Option<HistoryId>,
    history: Option<HistoryId>,
    historyProvided: bool,
    trace: seq<Event>)

  /** A new view model: UNCONSTRUCTED, policy NONE, no provider, no history obtained. */
  const Initial := ModelState(Unconstructed, NoHistory, None, None, false, [])

  function Emit(m: ModelState, e: Event): ModelState
  {
    m.(trace := m.trace + [e])
  }

  function Append(m: ModelState, t: seq<Event>): ModelState
  {
    m.(trace := m.trace + t)
  }

  /** How many times the provider was consulted in t. */
  function Asked(t: seq<Event>): nat
  {
    if t == [] then 0
    else Asked(t[..|t| - 1]) + (if t[|t| - 1] == ProviderAsked then 1 else 0)
  }

  lemma {:induction false} AskedAppend(a: seq<Event>, b: seq<Event>)
    ensures Asked(a + b) == Asked(a) + Asked(b)
    decreases |b|
  {
    if b == [] {
      assert a + b == a;
    } else {
      var b' := b[..|b| - 1];
      assert (a + b)[..|a + b| - 1] == a + b';
      assert (a + b)[|a + b| - 1] == b[|b| - 1];
      AskedAppend(a, b');
    }
  }

  /** No event of t calls one of ops. */
  predicate Avoids(t: seq<Event>, ops: set<HistoryOp>)
  {
    forall e | e in t :: !(e.HistoryCalled? && e.op in ops)
  }

  /** No event of t invokes the view-model hook h. */
  predicate NoModelCall(t: seq<Event>, h: ModelHook)
  {
    ModelCalled(h) !in t
  }

  /** Events of the history side: no lifecycle event and no provider call. */
  predicate Quiet(t: seq<Event>)
  {
    forall e | e in t :: !IsLifecycleEvent(e) && e != ProviderAsked
  }

  /** Every history call of t goes to history h. */
  predicate CallsTo(t: seq<Event>, h: Option<HistoryId>)
  {
    forall e | e in t && e.HistoryCalled? :: h == Some(e.target)
  }

  /** The invariant every reachable view model keeps: the history cache is set exactly
      when the provider has been consulted, which happened at most once, and every history
      call so far went to the cached history. */
  ghost predicate Inv(m: ModelState)
  {
    && (m.historyProvided <==> m.history.Some?)
    && Asked(m.trace) == (if m.historyProvided then 1 else 0)
    && CallsTo(m.trace, m.history)
  }

  lemma InitialInv()
    ensures Inv(Initial)
  {
  }

  /** Appending history-side events keeps the lifecycle events and the provider count. */
  lemma {:induction false} QuietAppend(t: seq<Event>, q: seq<Event>)
    requires Quiet(q)
    ensures LifecycleEvents(t + q) == LifecycleEvents(t) && Asked(t + q) == Asked(t)
    decreases |q|
  {
    if q == [] {
      assert t + q == t;
    } else {
      var q' := q[..|q| - 1];
      assert forall e | e in q' :: e in q;
      assert (t + q)[..|t + q| - 1] == t + q';
      assert (t + q)[|t + q| - 1] == q[|q| - 1];
      QuietAppend(t, q');
    }
  }

  /** Appending a provider call keeps the lifecycle events and counts one call more. */
  lemma AskedOnce(t: seq<Event>)
    ensures LifecycleEvents(t + [ProviderAsked]) == LifecycleEvents(t)
    ensures Asked(t + [ProviderAsked]) == Asked(t) + 1
  {
    assert (t + [ProviderAsked])[..|t|] == t;
  }

  /** The history getOrRequestHistory() hands out: the cached one, else what the provider
      supplies; None when there is neither. */
  function Target(m: ModelState): Option<HistoryId>
  {
    if m.historyProvided then m.history else m.provider
  }

  /** The provider call getOrRequestHistory() makes: one when nothing is cached yet. */
  function Ask(m: ModelState): seq<Event>
  {
    if m.historyProvided then [] else [ProviderAsked]
  }

  // ---------------------------------------------------------------------------------
  // The history hooks that ComponentHistory's documentation promises per policy.

  /** The restore operations for policy p on becoming CONSTRUCTED: restoreData for ALL or
      DATA, restoreAppearance for ALL or APPEARANCE, data first. */
  function Restored(p: HistoryPolicy): (r: seq<HistoryOp>)
    ensures RestoreData in r <==> p == Data || p == All
    ensures RestoreAppearance in r <==> p == Appearance || p == All
    ensures |r| <= 2 && (|r| == 2 ==> r == [RestoreData, RestoreAppearance])
    ensures p == All <==> |r| == 2
    ensures r == [] <==> p == NoHistory
  {
    (if p == Data || p == All then [RestoreData] else [])
      + (if p == Appearance || p == All then [RestoreAppearance] else [])
  }

  /** The save operations for policy p on becoming DEINITIALIZED, data first. */
  function Saved(p: HistoryPolicy): (r: seq<HistoryOp>)
    ensures SaveData in r <==> p == Data || p == All
    ensures SaveAppearance in r <==> p == Appearance || p == All
    ensures |r| <= 2 && (|r| == 2 ==> r == [SaveData, SaveAppearance])
    ensures p == All <==> |r| == 2
    ensures r == [] <==> p == NoHistory
  {
    (if p == Data || p == All then [SaveData] else [])
      + (if p == Appearance || p == All then [SaveAppearance] else [])
  }

  /** The events of calling every one of ops on history h, in order. */
  function HistoryCalls(ops: seq<HistoryOp>, h: HistoryId): (r: seq<Event>)
    ensures |r| == |ops|
    ensures forall i :: 0 <= i < |ops| ==> r[i] == HistoryCalled(ops[i], h)
  {
    if ops == [] then [] else [HistoryCalled(ops[0], h)] + HistoryCalls(ops[1..], h)
  }

  // ---------------------------------------------------------------------------------
  // getOrRequestHistory() and the state listener.

  /** getOrRequestHistory(): the provider is consulted only while nothing is cached, and
      its history is cached; None is the NullPointerException "No history provider". */
  function RequestHistory(m: ModelState): (r: (ModelState, Option<HistoryId>))
    ensures r.1 == Target(m)
    ensures m.historyProvided || r.1.None? ==> r.0 == m
    ensures !m.historyProvided && r.1.Some? ==>
      r.0 == Emit(m, ProviderAsked).(history := r.1, historyProvided := true)
    ensures r.1.Some? ==> r.0.historyProvided && r.0.history == r.1
  {
    if !m.historyProvided then
      if m.provider.None? then (m, None)
      else (Emit(m, ProviderAsked).(history := m.provider, historyProvided := true), m.provider)
    else (m, m.history)
  }

  /** Repeated requests: the provider is asked at most once over any number of calls, and
      every call hands out the history the first successful one obtained. */
  lemma RequestHistoryTwice(m: ModelState)
    requires Inv(m)
    ensures var (m1, h1) := RequestHistory(m);
      var (m2, h2) := RequestHistory(m1);
      && Inv(m1) && Inv(m2)
      && (h1.Some? ==> m2 == m1 && h2 == h1)
      && Asked(m2.trace) <= 1
  {
    var (m1, h1) := RequestHistory(m);
    if !m.historyProvided && h1.Some? {
      AskedAppend(m.trace, [ProviderAsked]);
      assert Asked([ProviderAsked]) == Asked([]) + 1;
    }
  }

  /** Whether fault names one of the history operations ops. */
  predicate HistoryFault(ops: seq<HistoryOp>, fault: Option<Hook>)
  {
    fault.Some? && fault.value.OfHistory? && fault.value.op in ops
  }

  /** The events of invoking ops on target in turn until the one fault names throws, its
      exception then going to the uncaught-exception handler; and whether every call
      returned normally. */
  function CallHistory(ops: seq<HistoryOp>, target: HistoryId, fault: Option<Hook>): (r: (seq<Event>, bool))
    ensures r.1 <==> !HistoryFault(ops, fault)
    ensures r.1 ==> r.0 == HistoryCalls(ops, target)
    ensures forall e | e in r.0 ::
      (e.HistoryCalled? && e.op in ops && e.target == target) || e == Uncaught(HookThrew(fault.value))
  {
    if ops == [] then ([], true)
    else if fault == Some(OfHistory(ops[0])) then
      ([HistoryCalled(ops[0], target), Uncaught(HookThrew(OfHistory(ops[0])))], false)
    else
      var r := CallHistory(ops[1..], target, fault);
      ([HistoryCalled(ops[0], target)] + r.0, r.1)
  }

  /** Two history calls are the first, then the second unless the first threw. */
  lemma CallHistoryPair(a: HistoryOp, b: HistoryOp, h: HistoryId, fault: Option<Hook>)
    ensures var first := CallHistory([a], h, fault);
      CallHistory([a, b], h, fault)
        == if !first.1 then first else (first.0 + CallHistory([b], h, fault).0, CallHistory([b], h, fault).1)
  {
    assert [a, b][1..] == [b];
    assert [a][1..] == [];
    assert CallHistory([], h, fault) == ([], true);
    assert [HistoryCalled(a, h)] + [] == [HistoryCalled(a, h)];
  }

  /** When ops[k] is the first operation that throws, exactly the operations up to and
      including it are called, and its exception follows them. */
  lemma {:induction false} CallHistoryStops(ops: seq<HistoryOp>, target: HistoryId, fault: Option<Hook>, k: nat)
    requires k < |ops| && fault == Some(OfHistory(ops[k])) && ops[k] !in ops[..k]
    ensures CallHistory(ops, target, fault)
      == (HistoryCalls(ops[..k + 1], target) + [Uncaught(HookThrew(OfHistory(ops[k])))], false)
    decreases k
  {
    if k == 0 {
      var one := ops[..1];
      assert one[0] == ops[0] && one[1..] == [];
      assert HistoryCalls(one, target) == [HistoryCalled(ops[0], target)] + HistoryCalls([], target);
      assert HistoryCalls(one, target) == [HistoryCalled(ops[0], target)];
      assert CallHistory(ops, target, fault)
        == ([HistoryCalled(ops[0], target), Uncaught(HookThrew(OfHistory(ops[0])))], false);
      assert [HistoryCalled(ops[0], target), Uncaught(HookThrew(OfHistory(ops[0])))]
        == HistoryCalls(ops[..k + 1], target) + [Uncaught(HookThrew(OfHistory(ops[k])))];
    } else {
      assert ops[0] in ops[..k];
      var rest := ops[1..];
      assert rest[k - 1] == ops[k];
      assert forall o | o in rest[..k - 1] :: o in ops[..k] by {
        assert rest[..k - 1] == ops[1..k];
      }
      CallHistoryStops(rest, target, fault, k - 1);
      assert fault != Some(OfHistory(ops[0]));
      assert CallHistory(ops, target, fault).0 == [HistoryCalled(ops[0], target)] + CallHistory(rest, target, fault).0;
      var pre := ops[..k + 1];
      assert pre[0] == ops[0] && pre[1..] == rest[..k];
      assert HistoryCalls(pre, target) == [HistoryCalled(ops[0], target)] + HistoryCalls(rest[..k], target);
      var u := [Uncaught(HookThrew(OfHistory(ops[k])))];
      assert CallHistory(rest, target, fault) == (HistoryCalls(rest[..k], target) + u, false);
      assert [HistoryCalled(ops[0], target)] + (HistoryCalls(rest[..k], target) + u) == HistoryCalls(pre, target) + u;
    }
  }

  /** The events of invoking the view-model hook h, which throws when fault names it; and
      whether it returned normally. */
  function CallHook(h: ModelHook, fault: Option<Hook>): (r: (seq<Event>, bool))
    ensures r.1 <==> fault != Some(OfModel(h))
    ensures |r.0| > 0 && r.0[0] == ModelCalled(h) && (r.1 ==> r.0 == [ModelCalled(h)])
  {
    if fault == Some(OfModel(h)) then ([ModelCalled(h), Uncaught(HookThrew(OfModel(h)))], false)
    else ([ModelCalled(h)], true)
  }

  /** The events of the CONSTRUCTED branch for restore operations ops, given the provider
      call ask that getOrRequestHistory() makes and the history h it returns: the
      "No history provider" exception, or the restores and then postHistoryRestore, each
      stopping at the first throw. */
  function RestoreEvents(ops: seq<HistoryOp>, ask: seq<Event>, h: Option<HistoryId>, fault: Option<Hook>): seq<Event>
  {
    if h.None? then [Uncaught(NoHistoryProvider)]
    else ask + RestoreCalls(ops, h.value, fault)
  }

  /** The restores ops on history h, then postHistoryRestore if none of them threw. */
  function RestoreCalls(ops: seq<HistoryOp>, h: HistoryId, fault: Option<Hook>): seq<Event>
  {
    var (calls, ok) := CallHistory(ops, h, fault);
    calls + (if ok then CallHook(PostHistoryRestore, fault).0 else [])
  }

  /** The events of the DEINITIALIZED branch for save operations ops: preHistorySave, then
      the history request and the saves, each stopping at the first throw. */
  function SaveEvents(ops: seq<HistoryOp>, ask: seq<Event>, h: Option<HistoryId>, fault: Option<Hook>): seq<Event>
  {
    var (pre, ok) := CallHook(PreHistorySave, fault);
    if !ok then pre
    else if h.None? then pre + [Uncaught(NoHistoryProvider)]
    else pre + ask + CallHistory(ops, h.value, fault).0
  }

  /** Whether the listener reaches getOrRequestHistory(). */
  predicate Requests(m: ModelState, fault: Option<Hook>)
  {
    && m.policy != NoHistory
    && (m.state == Constructed || (m.state == Deinitialized && fault != Some(OfModel(PreHistorySave))))
  }

  /** The events the state listener appends, for the state just written and the policy
      read at that moment. */
  function Reaction(m: ModelState, fault: Option<Hook>): seq<Event>
  {
    if m.policy == NoHistory then []
    else if m.state == Constructed then RestoreEvents(Restored(m.policy), Ask(m), Target(m), fault)
    else if m.state == Deinitialized then SaveEvents(Saved(m.policy), Ask(m), Target(m), fault)
    else []
  }

  /** The state listener of the view model, run after its state has changed to m.state. */
  function Listener(m: ModelState, fault: Option<Hook>): (r: ModelState)
    ensures r.state == m.state && r.policy == m.policy && r.provider == m.provider
    ensures r.trace == m.trace + Reaction(m, fault)
    ensures m.policy == NoHistory || (m.state != Constructed && m.state != Deinitialized) ==> r == m
  {
    var got := Requests(m, fault) && Target(m).Some?;
    m.(trace := m.trace + Reaction(m, fault),
       history := if got then Target(m) else m.history,
       historyProvided := m.historyProvided || got)
  }

  /** stateWrapper().set(s): the state becomes s, and the listener runs when the value
      actually changed. */
  function WriteState(m: ModelState, s: ComponentState, fault: Option<Hook>): (r: ModelState)
    ensures r.state == s && r.policy == m.policy && r.provider == m.provider
    ensures m.trace + [StateSet(s)] <= r.trace
    ensures s == m.state ==> r == Emit(m, StateSet(s))
  {
    var m1 := Emit(m.(state := s), StateSet(s));
    if s == m.state then m1 else Listener(m1, fault)
  }

  // ---------------------------------------------------------------------------------
  // What the listener promises.

  /** The part of the listener's events before the history request: preHistorySave when
      saving. */
  function Lead(m: ModelState, fault: Option<Hook>): seq<Event>
  {
    if m.policy != NoHistory && m.state == Deinitialized then CallHook(PreHistorySave, fault).0 else []
  }

  /** The provider call of the listener: one exactly when it requests a history that is
      not cached yet and a provider supplies one. */
  function Asking(m: ModelState, fault: Option<Hook>): seq<Event>
  {
    if Requests(m, fault) && Target(m).Some? && !m.historyProvided then [ProviderAsked] else []
  }

  /** The part of the listener's events after the history request. */
  function Tail(m: ModelState, fault: Option<Hook>): seq<Event>
  {
    if !Requests(m, fault) then []
    else if Target(m).None? then [Uncaught(NoHistoryProvider)]
    else if m.state == Constructed then RestoreCalls(Restored(m.policy), Target(m).value, fault)
    else CallHistory(Saved(m.policy), Target(m).value, fault).0
  }

  /** The listener's events are history-side events around at most one provider call,
      and every history call goes to the history handed out. */
  lemma ReactionSplit(m: ModelState, fault: Option<Hook>)
    ensures Reaction(m, fault) == Lead(m, fault) + Asking(m, fault) + Tail(m, fault)
    ensures Quiet(Lead(m, fault)) && Quiet(Tail(m, fault))
    ensures forall e | e in Lead(m, fault) :: !e.HistoryCalled?
    ensures CallsTo(Tail(m, fault), Target(m))
  {
    if m.policy != NoHistory && m.state == Constructed {
      RestoreSplit(m, fault);
    } else if m.policy != NoHistory && m.state == Deinitialized {
      SaveSplit(m, fault);
    }
  }

  lemma RestoreSplit(m: ModelState, fault: Option<Hook>)
    requires m.policy != NoHistory && m.state == Constructed
    ensures Reaction(m, fault) == Lead(m, fault) + Asking(m, fault) + Tail(m, fault)
    ensures Quiet(Lead(m, fault)) && Quiet(Tail(m, fault))
    ensures forall e | e in Lead(m, fault) :: !e.HistoryCalled?
    ensures CallsTo(Tail(m, fault), Target(m))
  {
    assert Lead(m, fault) == [];
    if Target(m).Some? {
      assert Ask(m) == Asking(m, fault);
      RestoreCallsQuiet(Restored(m.policy), Target(m).value, fault);
    }
  }

  /** The restores and postHistoryRestore are history-side events, and their history calls
      go to h. */
  lemma RestoreCallsQuiet(ops: seq<HistoryOp>, h: HistoryId, fault: Option<Hook>)
    ensures Quiet(RestoreCalls(ops, h, fault)) && CallsTo(RestoreCalls(ops, h, fault), Some(h))
  {
  }

  lemma SaveSplit(m: ModelState, fault: Option<Hook>)
    requires m.policy != NoHistory && m.state == Deinitialized
    ensures Reaction(m, fault) == Lead(m, fault) + Asking(m, fault) + Tail(m, fault)
    ensures Quiet(Lead(m, fault)) && Quiet(Tail(m, fault))
    ensures forall e | e in Lead(m, fault) :: !e.HistoryCalled?
    ensures CallsTo(Tail(m, fault), Target(m))
  {
    assert Lead(m, fault) == CallHook(PreHistorySave, fault).0;
    if fault != Some(OfModel(PreHistorySave)) && Target(m).Some? {
      assert Ask(m) == Asking(m, fault);
    }
  }

  /** The listener keeps the cache invariant: the provider is consulted at most once per
      view model, and every history call goes to the one history it supplied. */
  lemma ListenerInv(m: ModelState, fault: Option<Hook>)
    requires Inv(m)
    ensures Inv(Listener(m, fault))
  {
    ListenerCount(m, fault);
    ListenerCalls(m, fault);
    var r := Listener(m, fault);
    if Requests(m, fault) && Target(m).Some? && !m.historyProvided {
      assert |Asking(m, fault)| == 1;
    } else {
      assert |Asking(m, fault)| == 0;
    }
  }

  /** After the listener every history call, old or new, goes to the cached history. */
  lemma ListenerCalls(m: ModelState, fault: Option<Hook>)
    requires Inv(m)
    ensures CallsTo(Listener(m, fault).trace, Listener(m, fault).history)
  {
    ReactionSplit(m, fault);
    var r := Listener(m, fault);
    var lead, ask, tail := Lead(m, fault), Asking(m, fault), Tail(m, fault);
    assert r.trace == m.trace + (lead + ask + tail);
    forall e | e in r.trace && e.HistoryCalled?
      ensures r.history == Some(e.target)
    {
      if e in tail {
        assert Requests(m, fault) && Target(m).Some?;
      } else {
        assert e in m.trace;
      }
    }
  }

  /** Appending history-side events around at most one provider call keeps the lifecycle
      events and counts that call. */
  lemma SegmentsCount(t: seq<Event>, lead: seq<Event>, ask: seq<Event>, tail: seq<Event>)
    requires Quiet(lead) && Quiet(tail) && (ask == [] || ask == [ProviderAsked])
    ensures LifecycleEvents(t + (lead + ask + tail)) == LifecycleEvents(t)
    ensures Asked(t + (lead + ask + tail)) == Asked(t) + |ask|
  {
    var t1 := t + lead;
    QuietAppend(t, lead);
    var t2 := t1 + ask;
    if ask != [] {
      AskedOnce(t1);
    } else {
      assert t2 == t1;
    }
    QuietAppend(t2, tail);
    assert t + (lead + ask + tail) == t2 + tail;
  }

  /** The listener appends no lifecycle event, and consults the provider exactly when it
      requests a history that is not cached yet and a provider exists. */
  lemma ListenerCount(m: ModelState, fault: Option<Hook>)
    ensures LifecycleEvents(Listener(m, fault).trace) == LifecycleEvents(m.trace)
    ensures Asked(Listener(m, fault).trace) == Asked(m.trace) + |Asking(m, fault)|
  {
    ReactionSplit(m, fault);
    SegmentsCount(m.trace, Lead(m, fault), Asking(m, fault), Tail(m, fault));
  }

  /** Writing the state records the write and keeps the invariant; the listener adds no
      lifecycle event. */
  lemma WriteStateFacts(m: ModelState, s: ComponentState, fault: Option<Hook>)
    ensures LifecycleEvents(WriteState(m, s, fault).trace) == LifecycleEvents(m.trace) + [StateSet(s)]
    ensures Inv(m) ==> Inv(WriteState(m, s, fault))
  {
    var m1 := Emit(m.(state := s), StateSet(s));
    LifecycleEventsAppend(m.trace, [StateSet(s)]);
    assert [StateSet(s)][..0] == [];
    PlainAppend(m.(state := s), [StateSet(s)]);
    if s != m.state {
      ListenerCount(m1, fault);
      if Inv(m) {
        ListenerInv(m1, fault);
      }
    }
  }

  /** No event of t consults the provider or calls the history. */
  predicate Plain(t: seq<Event>)
  {
    forall e | e in t :: !e.HistoryCalled? && e != ProviderAsked
  }

  /** Appending events that neither consult the provider nor call the history keeps the
      invariant. */
  lemma PlainAppend(m: ModelState, t: seq<Event>)
    requires Plain(t)
    ensures Asked(m.trace + t) == Asked(m.trace)
    ensures Inv(m) ==> Inv(Append(m, t))
  {
    PlainAsked(m.trace, t);
    if Inv(m) {
      forall e | e in m.trace + t && e.HistoryCalled?
        ensures m.history == Some(e.target)
      {
        assert e in m.trace;
      }
    }
  }

  lemma {:induction false} PlainAsked(t0: seq<Event>, t: seq<Event>)
    requires Plain(t)
    ensures Asked(t0 + t) == Asked(t0)
    decreases |t|
  {
    if t != [] {
      var t' := t[..|t| - 1];
      assert forall e | e in t' :: e in t;
      assert (t0 + t)[..|t0 + t| - 1] == t0 + t';
      assert (t0 + t)[|t0 + t| - 1] == t[|t| - 1];
      assert t[|t| - 1] in t;
      PlainAsked(t0, t');
      assert Asked(t0 + t) == Asked(t0 + t');
    } else {
      assert t0 + t == t0;
    }
  }

  /** Without faults and with a history at hand, the listener makes exactly the calls
      ComponentHistory documents for the policy, in order: on CONSTRUCTED the restores and
      then postHistoryRestore, on DEINITIALIZED preHistorySave and then the saves. */
  lemma ListenerTable(m: ModelState)
    requires Target(m).Some? && m.policy != NoHistory
    ensures m.state == Constructed ==>
      Reaction(m, None) == Ask(m) + HistoryCalls(Restored(m.policy), Target(m).value) + [ModelCalled(PostHistoryRestore)]
    ensures m.state == Deinitialized ==>
      Reaction(m, None) == [ModelCalled(PreHistorySave)] + Ask(m) + HistoryCalls(Saved(m.policy), Target(m).value)
  {
  }

  /** A restore that throws ends the CONSTRUCTED branch: restoreData's exception skips
      restoreAppearance, and either one skips postHistoryRestore. */
  lemma RestoreThrowSkipsPost(m: ModelState, op: HistoryOp)
    requires m.state == Constructed && Target(m).Some? && op in Restored(m.policy)
    ensures var fault := Some(OfHistory(op));
      var h := Target(m).value;
      && Reaction(m, fault)
         == Ask(m) + (if op == RestoreData then [HistoryCalled(RestoreData, h)]
                      else HistoryCalls(Restored(m.policy), h))
           + [Uncaught(HookThrew(OfHistory(op)))]
      && NoModelCall(Reaction(m, fault), PostHistoryRestore)
  {
    var ops, h, fault := Restored(m.policy), Target(m).value, Some(OfHistory(op));
    var k := if op == RestoreData then 0 else |ops| - 1;
    assert ops[k] == op && op !in ops[..k];
    RestoreCallsStop(ops, h, k);
    assert Reaction(m, fault) == Ask(m) + RestoreCalls(ops, h, fault);
    assert op == RestoreData ==> ops[..1] == [RestoreData];
    assert op != RestoreData ==> ops[..k + 1] == ops;
  }

  /** When restore k throws, the restores stop after it and postHistoryRestore is skipped. */
  lemma RestoreCallsStop(ops: seq<HistoryOp>, h: HistoryId, k: nat)
    requires k < |ops| && ops[k] !in ops[..k]
    ensures var fault := Some(OfHistory(ops[k]));
      var calls := HistoryCalls(ops[..k + 1], h) + [Uncaught(HookThrew(OfHistory(ops[k])))];
      && RestoreCalls(ops, h, fault) == calls
      && NoModelCall(calls, PostHistoryRestore)
  {
    var calls := HistoryCalls(ops[..k + 1], h) + [Uncaught(HookThrew(OfHistory(ops[k])))];
    CallHistoryStops(ops, h, Some(OfHistory(ops[k])), k);
    assert forall e | e in calls :: !e.ModelCalled?;
  }

  /** A save that throws ends the DEINITIALIZED branch: saveData's exception skips
      saveAppearance. */
  lemma SaveThrowStops(m: ModelState, op: HistoryOp)
    requires m.state == Deinitialized && Target(m).Some? && op in Saved(m.policy)
    ensures var fault := Some(OfHistory(op));
      var h := Target(m).value;
      Reaction(m, fault)
        == [ModelCalled(PreHistorySave)] + Ask(m)
           + (if op == SaveData then [HistoryCalled(SaveData, h)] else HistoryCalls(Saved(m.policy), h))
           + [Uncaught(HookThrew(OfHistory(op)))]
  {
    var ops, h, fault := Saved(m.policy), Target(m).value, Some(OfHistory(op));
    var k := if op == SaveData then 0 else |ops| - 1;
    assert ops[k] == op && op !in ops[..k];
    CallHistoryStops(ops, h, fault, k);
    assert op == SaveData ==> ops[..1] == [SaveData];
    assert op != SaveData ==> ops[..k + 1] == ops;
  }

  /** The listener calls only the operations of its policy's table for the state, and
      only the model hook of that state. */
  lemma ReactionOps(m: ModelState, fault: Option<Hook>)
    ensures m.state == Constructed ==>
      && (forall e | e in Reaction(m, fault) && e.HistoryCalled? :: e.op in Restored(m.policy))
      && NoModelCall(Reaction(m, fault), PreHistorySave)
    ensures m.state == Deinitialized ==>
      && (forall e | e in Reaction(m, fault) && e.HistoryCalled? :: e.op in Saved(m.policy))
      && NoModelCall(Reaction(m, fault), PostHistoryRestore)
  {
    ReactionSplit(m, fault);
    TailOps(m, fault);
    var lead, ask, tail := Lead(m, fault), Asking(m, fault), Tail(m, fault);
    assert m.state != Deinitialized ==> lead == [];
    assert ModelCalled(PostHistoryRestore) !in lead;
    assert forall e | e in Reaction(m, fault) :: e in lead || e in ask || e in tail;
  }

  lemma TailOps(m: ModelState, fault: Option<Hook>)
    ensures m.state == Constructed ==>
      && (forall e | e in Tail(m, fault) && e.HistoryCalled? :: e.op in Restored(m.policy))
      && NoModelCall(Tail(m, fault), PreHistorySave)
    ensures m.state == Deinitialized ==>
      && (forall e | e in Tail(m, fault) && e.HistoryCalled? :: e.op in Saved(m.policy))
      && NoModelCall(Tail(m, fault), PostHistoryRestore)
  {
    if Requests(m, fault) && Target(m).Some? {
      if m.state == Constructed {
        RestoreCallsOps(Restored(m.policy), Target(m).value, fault);
      } else {
        var calls := CallHistory(Saved(m.policy), Target(m).value, fault).0;
        assert Tail(m, fault) == calls;
      }
    }
  }

  /** The restores call only ops and never preHistorySave. */
  lemma RestoreCallsOps(ops: seq<HistoryOp>, h: HistoryId, fault: Option<Hook>)
    ensures forall e | e in RestoreCalls(ops, h, fault) && e.HistoryCalled? :: e.op in ops
    ensures NoModelCall(RestoreCalls(ops, h, fault), PreHistorySave)
  {
    var (calls, ok) := CallHistory(ops, h, fault);
    var post := if ok then CallHook(PostHistoryRestore, fault).0 else [];
    assert RestoreCalls(ops, h, fault) == calls + post;
    assert forall e | e in post :: (e.ModelCalled? && e.mhook == PostHistoryRestore) || e.Uncaught?;
  }

  /** Whatever throws, APPEARANCE never calls a data operation, DATA never calls an
      appearance operation, CONSTRUCTED never saves and DEINITIALIZED never restores. */
  lemma ListenerSeparation(m: ModelState, fault: Option<Hook>)
    ensures var added := Reaction(m, fault);
      && (m.policy == Appearance ==> Avoids(added, {RestoreData, SaveData}))
      && (m.policy == Data ==> Avoids(added, {RestoreAppearance, SaveAppearance}))
      && (m.state == Constructed ==> Avoids(added, {SaveData, SaveAppearance}) && NoModelCall(added, PreHistorySave))
      && (m.state == Deinitialized ==> Avoids(added, {RestoreData, RestoreAppearance}) && NoModelCall(added, PostHistoryRestore))
  {
    if m.state == Constructed {
      RestoreSeparation(m, fault);
    } else if m.state == Deinitialized {
      SaveSeparation(m, fault);
    } else {
      assert Reaction(m, fault) == [];
    }
  }

  lemma RestoreSeparation(m: ModelState, fault: Option<Hook>)
    requires m.state == Constructed
    ensures var added := Reaction(m, fault);
      && (m.policy == Appearance ==> Avoids(added, {RestoreData, SaveData}))
      && (m.policy == Data ==> Avoids(added, {RestoreAppearance, SaveAppearance}))
      && Avoids(added, {SaveData, SaveAppearance}) && NoModelCall(added, PreHistorySave)
  {
    ReactionOps(m, fault);
    var ops := Restored(m.policy);
    assert forall op | op in ops :: op == RestoreData || op == RestoreAppearance;
    assert m.policy == Appearance ==> ops == [RestoreAppearance];
    assert m.policy == Data ==> ops == [RestoreData];
  }

  lemma SaveSeparation(m: ModelState, fault: Option<Hook>)
    requires m.state == Deinitialized
    ensures var added := Reaction(m, fault);
      && (m.policy == Appearance ==> Avoids(added, {RestoreData, SaveData}))
      && (m.policy == Data ==> Avoids(added, {RestoreAppearance, SaveAppearance}))
      && Avoids(added, {RestoreData, RestoreAppearance}) && NoModelCall(added, PostHistoryRestore)
  {
    ReactionOps(m, fault);
    var ops := Saved(m.policy);
    assert forall op | op in ops :: op == SaveData || op == SaveAppearance;
    assert m.policy == Appearance ==> ops == [SaveAppearance];
    assert m.policy == Data ==> ops == [SaveData];
  }

  /** Without a provider and with nothing cached, a policy other than NONE makes the
      listener throw "No history provider" before any history call (after preHistorySave
      when saving). */
  lemma ListenerNoProvider(m: ModelState, fault: Option<Hook>)
    requires Target(m).None? && m.policy != NoHistory
    ensures m.state == Constructed ==> Reaction(m, fault) == [Uncaught(NoHistoryProvider)]
    ensures m.state == Deinitialized && fault != Some(OfModel(PreHistorySave)) ==>
      Reaction(m, fault) == [ModelCalled(PreHistorySave), Uncaught(NoHistoryProvider)]
  {
  }

  /** The listener on becoming CONSTRUCTED, as the history request and then the rest. */
  lemma RestoreSteps(m: ModelState, fault: Option<Hook>)
    requires m.state == Constructed && m.policy != NoHistory
    ensures Listener(m, fault) == Append(RequestHistory(m).0, Tail(m, fault))
  {
    var tail := Tail(m, fault);
    if m.historyProvided {
      assert Reaction(m, fault) == tail;
    } else if m.provider.None? {
      assert Reaction(m, fault) == tail;
    } else {
      assert Reaction(m, fault) == [ProviderAsked] + tail;
      assert m.trace + [ProviderAsked] + tail == m.trace + ([ProviderAsked] + tail);
    }
  }

  /** The listener on becoming DEINITIALIZED, as preHistorySave, then the history request
      and the rest when preHistorySave returned. */
  lemma SaveSteps(m: ModelState, fault: Option<Hook>)
    requires m.state == Deinitialized && m.policy != NoHistory
    ensures !Requests(m, fault) ==> Listener(m, fault) == Append(m, Lead(m, fault))
    ensures Requests(m, fault) ==>
      Listener(m, fault) == Append(RequestHistory(Append(m, Lead(m, fault))).0, Tail(m, fault))
  {
    SaveSplit(m, fault);
    if Requests(m, fault) {
      assert m.trace + Reaction(m, fault) == m.trace + Lead(m, fault) + Asking(m, fault) + Tail(m, fault);
    }
  }

  class ViewModel {
    var state: ComponentState
    var policy: HistoryPolicy
    var provider: Option<HistoryId>
    var history: Option<HistoryId>
    var historyProvided: bool
    ghost var trace: seq<Event>

    ghost function Model(): ModelState
      reads this
    {
      ModelState(state, policy, provider, history, historyProvided, trace)
    }

    constructor ()
      ensures Model() == Initial
    {
      state := Unconstructed;
      policy := NoHistory;
      provider := None;
      history := None;
      historyProvided := false;
      trace := [];
    }

    method SetHistoryPolicy(p: HistoryPolicy)
      modifies this
      ensures Model() == old(Model()).(policy := p)
    {
      policy := p;
    }

    method SetHistoryProvider(p: Option<HistoryId>)
      modifies this
      ensures Model() == old(Model()).(provider := p)
    {
      provider := p;
    }

    method GetOrRequestHistory() returns (h: Option<HistoryId>)
      modifies this
      ensures (Model(), h) == RequestHistory(old(Model()))
    {
      if !historyProvided {
        if provider.None? {
          return None;
        }
        trace := trace + [ProviderAsked];
        history := provider;
        historyProvided := true;
      }
      h := history;
    }

    /** Calls op on target; a throw is handed to the uncaught-exception handler. */
    method CallHistoryOp(op: HistoryOp, target: HistoryId, fault: Option<Hook>) returns (ok: bool)
      modifies this
      ensures Model() == Append(old(Model()), CallHistory([op], target, fault).0)
      ensures ok == CallHistory([op], target, fault).1
    {
      trace := trace + [HistoryCalled(op, target)];
      ok := fault != Some(OfHistory(op));
      if !ok {
        trace := trace + [Uncaught(HookThrew(OfHistory(op)))];
      }
    }

    /** Calls postHistoryRestore or preHistorySave; a throw is handed to the
        uncaught-exception handler. */
    method CallModelHook(h: ModelHook, fault: Option<Hook>) returns (ok: bool)
      modifies this
      ensures Model() == Append(old(Model()), CallHook(h, fault).0) && ok == CallHook(h, fault).1
    {
      trace := trace + [ModelCalled(h)];
      ok := fault != Some(OfModel(h));
      if !ok {
        trace := trace + [Uncaught(HookThrew(OfModel(h)))];
      }
    }

    /** The listener body for the state just written, with the policy read first. */
    method OnStateChanged(fault: Option<Hook>)
      modifies this
      ensures Model() == Listener(old(Model()), fault)
    {
      var p := policy;
      if state == Constructed && p != NoHistory {
        RestoreHistory(p, fault);
      } else if state == Deinitialized && p != NoHistory {
        SaveHistory(p, fault);
      }
    }

    /** The listener's switch on becoming CONSTRUCTED: request the history, run the
        restores of the policy, then postHistoryRestore. */
    method RestoreHistory(p: HistoryPolicy, fault: Option<Hook>)
      requires state == Constructed && p == policy && p != NoHistory
      modifies this
      ensures Model() == Listener(old(Model()), fault)
    {
      RestoreSteps(Model(), fault);
      var h := GetOrRequestHistory();
      if h.None? {
        trace := trace + [Uncaught(NoHistoryProvider)];
        return;
      }
      RunRestores(p, h.value, fault);
    }

    /** The restores of policy p on history h, then postHistoryRestore if none threw. */
    method RunRestores(p: HistoryPolicy, h: HistoryId, fault: Option<Hook>)
      requires p != NoHistory
      modifies this
      ensures Model() == Append(old(Model()), RestoreCalls(Restored(p), h, fault))
    {
      ghost var start := trace;
      ghost var calls := CallHistory(Restored(p), h, fault);
      var ok := CallPolicyOps(p, true, h, fault);
      if ok {
        ok := CallModelHook(PostHistoryRestore, fault);
        assert trace == start + (calls.0 + CallHook(PostHistoryRestore, fault).0);
      } else {
        assert calls.0 + [] == calls.0;
      }
    }

    /** The listener's switch on becoming DEINITIALIZED: preHistorySave, then request the
        history and run the saves of the policy. */
    method SaveHistory(p: HistoryPolicy, fault: Option<Hook>)
      requires state == Deinitialized && p == policy && p != NoHistory
      modifies this
      ensures Model() == Listener(old(Model()), fault)
    {
      SaveSteps(Model(), fault);
      var ok := CallModelHook(PreHistorySave, fault);
      if !ok {
        return;
      }
      var h := GetOrRequestHistory();
      if h.None? {
        trace := trace + [Uncaught(NoHistoryProvider)];
        return;
      }
      ok := CallPolicyOps(p, false, h.value, fault);
    }

    /** The calls on history h of one case of the listener's switches: the restores
        (restoring) or the saves of policy p, in the source's order, stopping at a throw. */
    method CallPolicyOps(p: HistoryPolicy, restoring: bool, h: HistoryId, fault: Option<Hook>) returns (ok: bool)
      requires p != NoHistory
      modifies this
      ensures var ops := if restoring then Restored(p) else Saved(p);
        Model() == Append(old(Model()), CallHistory(ops, h, fault).0) && ok == CallHistory(ops, h, fault).1
    {
      var dataOp := if restoring then RestoreData else SaveData;
      var appearanceOp := if restoring then RestoreAppearance else SaveAppearance;
      ghost var ops := if restoring then Restored(p) else Saved(p);
      match p {
        case Data =>
          assert ops == [dataOp];
          ok := CallHistoryOp(dataOp, h, fault);
        case Appearance =>
          assert ops == [appearanceOp];
          ok := CallHistoryOp(appearanceOp, h, fault);
        case All =>
          assert ops == [dataOp, appearanceOp];
          CallHistoryPair(dataOp, appearanceOp, h, fault);
          ghost var start := trace;
          ok := CallHistoryOp(dataOp, h, fault);
          if ok {
            ghost var mid := trace;
            ok := CallHistoryOp(appearanceOp, h, fault);
            assert trace == start + (CallHistory([dataOp], h, fault).0 + CallHistory([appearanceOp], h, fault).0);
          }
      }
    }

    /** stateWrapper().set(s), with the listener firing on an actual change. */
    method SetState(s: ComponentState, fault: Option<Hook>)
      modifies this
      ensures Model() == WriteState(old(Model()), s, fault)
    {
      var changed := s != state;
      state := s;
      trace := trace + [StateSet(s)];
      if changed {
        OnStateChanged(fault);
      }
    }
  }
}
