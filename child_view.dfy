/** AbstractChildView's layout-pulse bookkeeping: two lists of LayoutPulseListeners, one per
    timing, a one-shot listener on the scene property, and at most one installed pulse
    callback per timing that runs the listeners of its timing on every pulse of the scene it
    was added to. */
module ChildViews {
  import opened Components

  /** PulseListenerTiming: before or after the layout pass of a pulse. */
  datatype Timing = Before | After

  function Other(t: Timing): Timing
  {
    if t == Before then After else Before
  }

  /** Identity of a Scene. */
  type SceneId = nat

  /** Identity of a LayoutPulseListener object (the lists compare by identity). */
  type ListenerId = nat

  /** A pulse callback (the Runnable lambda): its identity and the scene it captured. */
  datatype Callback = Callback(id: nat, scene: SceneId)

  /** One entry in a scene's pre- or post-layout pulse listener list. */
  datatype Registration = Registration(timing: Timing, scene: SceneId, id: nat)

  /** The state of one child view's bookkeeping together with the scenes' pulse listener
      lists (as far as this view's callbacks go) and the listeners called so far. */
  datatype PulseState = PulseState(
    scene: Option<SceneId>,          // the current value of sceneProperty()
    sceneListener: bool,             // sceneListener != null, i.e. it is added to sceneProperty()
    preCallback: Option<Callback>,   // preLayoutPulseListener
    postCallback: Option<Callback>,  // postLayoutPulseListener
    pre: seq<ListenerId>,            // preLayoutPulseListeners
    post: seq<ListenerId>,           // postLayoutPulseListeners
    registry: seq<Registration>,     // the scenes' pulse listener lists
    nextCallback: nat,               // the identity the next lambda gets
    called: seq<ListenerId>)         // every onLayoutPulse() call, in order

  /** What a call does: it returns, or it throws a NullPointerException. */
  datatype Outcome = Returned(state: PulseState) | ThrewNullPointer(state: PulseState)

  /** A freshly constructed view whose scene property holds `scene`. */
  function Fresh(scene: Option<SceneId>): PulseState
  {
    PulseState(scene, false, None, None, [], [], [], 0, [])
  }

  function Listeners(s: PulseState, t: Timing): seq<ListenerId>
  {
    if t == Before then s.pre else s.post
  }

  function Installed(s: PulseState, t: Timing): Option<Callback>
  {
    if t == Before then s.preCallback else s.postCallback
  }

  function WithListeners(s: PulseState, t: Timing, l: seq<ListenerId>): PulseState
  {
    if t == Before then s.(pre := l) else s.(post := l)
  }

  function WithInstalled(s: PulseState, t: Timing, c: Option<Callback>): PulseState
  {
    if t == Before then s.(preCallback := c) else s.(postCallback := c)
  }

  /** Position of the first occurrence of x. */
  function IndexOf<T(==)>(xs: seq<T>, x: T): (i: nat)
    requires x in xs
    ensures i < |xs| && xs[i] == x && x !in xs[..i]
  {
    if xs[0] == x then 0
    else
      var j := IndexOf(xs[1..], x);
      assert xs[..j + 1] == [xs[0]] + xs[1..][..j];
      j + 1
  }

  /** List.remove(Object): deletes the first occurrence, if any. */
  function RemoveFirst<T(==)>(xs: seq<T>, x: T): (r: seq<T>)
    ensures x !in xs ==> r == xs
    ensures multiset(r) == multiset(xs) - multiset{x}
  {
    if x !in xs then xs
    else
      var i := IndexOf(xs, x);
      assert xs == xs[..i] + [x] + xs[i + 1..];
      xs[..i] + xs[i + 1..]
  }

  /** The occurrence List.remove deletes is the first one, and the others keep their order:
      what is left is everything before position i, then everything after it, where xs[i]
      is x and no earlier element is. */
  lemma RemoveFirstDeletesFirst<T>(xs: seq<T>, x: T, i: nat)
    requires i < |xs| && xs[i] == x && x !in xs[..i]
    ensures RemoveFirst(xs, x) == xs[..i] + xs[i + 1..]
  {
    var j := IndexOf(xs, x);
    assert forall k | 0 <= k < i :: xs[..i][k] == xs[k];
    assert forall k | 0 <= k < j :: xs[..j][k] == xs[k];
  }

  /** The listeners that answered true, in their order: the list callListeners leaves,
      where keep[i] is what the i-th listener's onLayoutPulse() returned. */
  function Filter(xs: seq<ListenerId>, keep: seq<bool>): (r: seq<ListenerId>)
    requires |keep| == |xs|
    ensures |r| <= |xs|
  {
    if xs == [] then []
    else Filter(xs[..|xs| - 1], keep[..|xs| - 1]) + (if keep[|xs| - 1] then [xs[|xs| - 1]] else [])
  }

  // ----- the private helpers -----

  /** addSceneListener(). */
  function SceneListenerAdded(s: PulseState): PulseState
  {
    s.(sceneListener := true)
  }

  /** removeSceneListener(): a no-op when no scene listener is added. */
  function SceneListenerRemoved(s: PulseState): PulseState
  {
    if s.sceneListener then s.(sceneListener := false) else s
  }

  /** checkSceneListener(). */
  function SceneListenerChecked(s: PulseState): PulseState
  {
    if s.pre == [] && s.post == [] then SceneListenerRemoved(s) else s
  }

  /** addPre/PostLayoutPulseListener(scene): a new callback capturing `scene`, added to it. */
  function AddPulse(s: PulseState, t: Timing, scene: SceneId): PulseState
  {
    WithInstalled(s, t, Some(Callback(s.nextCallback, scene)))
      .(registry := s.registry + [Registration(t, scene, s.nextCallback)],
        nextCallback := s.nextCallback + 1)
  }

  /** removePre/PostLayoutPulseListener(scene): the installed callback is removed from `scene`,
      which is dereferenced; a no-op when no callback is installed. */
  function RemovePulse(s: PulseState, t: Timing, scene: Option<SceneId>): Outcome
  {
    match Installed(s, t)
    case None => Returned(s)
    case Some(cb) =>
      if scene.None? then ThrewNullPointer(s)
      else Returned(WithInstalled(s, t, None).(registry := RemoveFirst(s.registry, Registration(t, scene.value, cb.id))))
  }

  /** checkPre/PostLayoutPulseListener(scene). */
  function CheckPulse(s: PulseState, t: Timing, scene: Option<SceneId>): Outcome
  {
    if Listeners(s, t) == [] then RemovePulse(s, t, scene) else Returned(s)
  }

  // ----- the operations -----

  /** addLayoutPulseListener(timing, listener). */
  function Add(s: PulseState, t: Timing, l: ListenerId): (r: PulseState)
    ensures Listeners(r, t) == Listeners(s, t) + [l]
    ensures Listeners(r, Other(t)) == Listeners(s, Other(t))
    ensures r.scene == s.scene && r.called == s.called
  {
    var s1 :=
      if Listeners(s, t) == [] && !s.sceneListener then
        if s.scene.None? then SceneListenerAdded(s) else AddPulse(s, t, s.scene.value)
      else s;
    WithListeners(s1, t, Listeners(s1, t) + [l])
  }

  /** removeLayoutPulseListener(timing, listener) as written: the current scene is read first
      and handed to checkPre/PostLayoutPulseListener. */
  function Remove(s: PulseState, t: Timing, l: ListenerId): Outcome
  {
    var s1 := WithListeners(s, t, RemoveFirst(Listeners(s, t), l));
    if !s1.sceneListener then CheckPulse(s1, t, s.scene) else Returned(SceneListenerChecked(s1))
  }

  /** removeLayoutPulseListener with the callback removed from the scene it was added to,
      the scene it captured, instead of the current one. */
  function RemoveCorrected(s: PulseState, t: Timing, l: ListenerId): PulseState
  {
    var s1 := WithListeners(s, t, RemoveFirst(Listeners(s, t), l));
    if !s1.sceneListener then
      match Installed(s1, t)
      case None => s1
      case Some(cb) => CheckPulse(s1, t, Some(cb.scene)).state
    else SceneListenerChecked(s1)
  }

  /** The scene property changes to v; the scene listener, when added, sees the change. */
  function SceneChanged(s: PulseState, v: Option<SceneId>): (r: PulseState)
    ensures r.scene == v && r.pre == s.pre && r.post == s.post && r.called == s.called
  {
    var s0 := s.(scene := v);
    if v == s.scene || !s.sceneListener || v.None? then s0
    else
      var s1 := if s.pre != [] then AddPulse(s0, Before, v.value) else s0;
      var s2 := if s.post != [] then AddPulse(s1, After, v.value) else s1;
      SceneListenerRemoved(s2)
  }

  /** Whether one of the listeners xs throws from onLayoutPulse(): thrower is the position of
      the first one that does, if any. */
  predicate Throws(xs: seq<ListenerId>, thrower: Option<nat>)
  {
    thrower.Some? && thrower.value < |xs|
  }

  /** How far callListeners' iterator gets: to the listener that throws, or to the end. */
  function Reach(xs: seq<ListenerId>, thrower: Option<nat>): (k: nat)
    ensures k <= |xs| && (k < |xs| <==> Throws(xs, thrower))
  {
    if Throws(xs, thrower) then thrower.value else |xs|
  }

  /** The listeners callListeners calls: all of them, or those up to the one that throws. */
  function CalledUpTo(xs: seq<ListenerId>, thrower: Option<nat>): (r: seq<ListenerId>)
    ensures r <= xs
    ensures !Throws(xs, thrower) ==> r == xs
    ensures Throws(xs, thrower) ==> |r| == thrower.value + 1
  {
    if Throws(xs, thrower) then xs[..thrower.value + 1] else xs
  }

  /** The list callListeners leaves: the listeners before a throwing one that answered true,
      followed by the throwing one and all after it, untouched. */
  function Survivors(xs: seq<ListenerId>, keep: seq<bool>, thrower: Option<nat>): (r: seq<ListenerId>)
    requires |keep| == |xs|
    ensures !Throws(xs, thrower) ==> r == Filter(xs, keep)
  {
    var k := Reach(xs, thrower);
    assert xs[..|xs|] == xs && keep[..|keep|] == keep;
    Filter(xs[..k], keep[..k]) + xs[k..]
  }

  /** The registration of the callback installed for timing t, if any. */
  function InstalledRegistration(s: PulseState, t: Timing): multiset<Registration>
  {
    match Installed(s, t)
    case None => multiset{}
    case Some(cb) => multiset{Registration(t, cb.scene, cb.id)}
  }

  /** addPre/PostLayoutPulseListener(scene) that first detaches a callback still installed
      for t from the scene it captured, instead of overwriting the field. */
  function Install(s: PulseState, t: Timing, scene: SceneId): (r: PulseState)
    ensures Installed(r, t) == Some(Callback(s.nextCallback, scene))
    ensures Installed(r, Other(t)) == Installed(s, Other(t))
    ensures multiset(r.registry)
      == multiset(s.registry) - InstalledRegistration(s, t) + multiset{Registration(t, scene, s.nextCallback)}
    ensures r.nextCallback == s.nextCallback + 1
    ensures r.scene == s.scene && r.sceneListener == s.sceneListener
    ensures r.pre == s.pre && r.post == s.post && r.called == s.called
  {
    var s1 := match Installed(s, t)
      case None => s
      case Some(cb) => RemovePulse(s, t, Some(cb.scene)).state;
    assert Installed(s1, Other(t)) == Installed(s, Other(t));
    AddPulse(s1, t, scene)
  }

  /** The scene listener's step for timing t on reaching scene: a callback when t has
      listeners, through Install. */
  function Reinstall(s: PulseState, t: Timing, scene: SceneId): (r: PulseState)
    ensures Installed(r, Other(t)) == Installed(s, Other(t))
    ensures s.nextCallback <= r.nextCallback
    ensures r.scene == s.scene && r.sceneListener == s.sceneListener
    ensures r.pre == s.pre && r.post == s.post && r.called == s.called
  {
    if Listeners(s, t) != [] then Install(s, t, scene) else s
  }

  /** The scene listener's reaction with a callback still installed for a timing detached
      from its captured scene before the new one is added. */
  function SceneChangedCorrected(s: PulseState, v: Option<SceneId>): (r: PulseState)
    ensures r.scene == v && r.pre == s.pre && r.post == s.post && r.called == s.called
  {
    var s0 := s.(scene := v);
    if v == s.scene || !s.sceneListener || v.None? then s0
    else SceneListenerRemoved(Reinstall(Reinstall(s0, Before, v.value), After, v.value))
  }

  /** addLayoutPulseListener with the first callback of a timing installed through Install,
      so that a callback still installed for it is detached from the scene it captured. */
  function AddCorrected(s: PulseState, t: Timing, l: ListenerId): (r: PulseState)
    ensures Listeners(r, t) == Listeners(s, t) + [l]
    ensures Listeners(r, Other(t)) == Listeners(s, Other(t))
    ensures r.scene == s.scene && r.called == s.called
  {
    var s1 :=
      if Listeners(s, t) == [] && !s.sceneListener then
        if s.scene.None? then SceneListenerAdded(s) else Install(s, t, s.scene.value)
      else s;
    WithListeners(s1, t, Listeners(s1, t) + [l])
  }

  /** callListeners(list of timing t), which ends early when a listener throws. */
  function ListenersCalled(s: PulseState, t: Timing, answers: seq<bool>, thrower: Option<nat>): PulseState
    requires |answers| == |Listeners(s, t)|
  {
    WithListeners(s, t, Survivors(Listeners(s, t), answers, thrower))
      .(called := s.called + CalledUpTo(Listeners(s, t), thrower))
  }

  /** A pulse of cb.scene runs the callback cb of timing t: callListeners, then, unless a
      listener threw, checkPre/PostLayoutPulseListener on the captured scene. */
  function Pulse(s: PulseState, t: Timing, cb: Callback, answers: seq<bool>, thrower: Option<nat>): PulseState
    requires |answers| == |Listeners(s, t)|
  {
    var c := ListenersCalled(s, t, answers, thrower);
    if Throws(Listeners(s, t), thrower) then c else CheckPulse(c, t, Some(cb.scene)).state
  }

  // ----- properties -----

  /** Every installed callback is registered with the scene it captured, and every callback
      identity in use is below the next one handed out. */
  ghost predicate Valid(s: PulseState)
  {
    && (forall r | r in s.registry :: r.id < s.nextCallback)
    && RegisteredAs(s, Before)
    && RegisteredAs(s, After)
  }

  /** The callback installed for timing t, if any, is registered with its captured scene. */
  ghost predicate RegisteredAs(s: PulseState, t: Timing)
  {
    match Installed(s, t)
    case None => true
    case Some(cb) => cb.id < s.nextCallback && Registration(t, cb.scene, cb.id) in s.registry
  }

  lemma FreshValid(scene: Option<SceneId>)
    ensures Valid(Fresh(scene))
  {
  }

  /** Valid looks only at the registry, the callbacks and the next identity. */
  lemma ValidFrame(s: PulseState, r: PulseState)
    requires Valid(s)
    requires r.registry == s.registry && r.nextCallback == s.nextCallback
    requires r.preCallback == s.preCallback && r.postCallback == s.postCallback
    ensures Valid(r)
  {
    assert Installed(r, Before) == Installed(s, Before) && Installed(r, After) == Installed(s, After);
  }

  lemma AddPulseValid(s: PulseState, t: Timing, scene: SceneId)
    requires Valid(s)
    ensures Valid(AddPulse(s, t, scene))
  {
    var r := AddPulse(s, t, scene);
    assert Installed(r, Other(t)) == Installed(s, Other(t));
    assert RegisteredAs(r, Other(t));
    assert RegisteredAs(r, t);
  }

  lemma RemovePulseValid(s: PulseState, t: Timing, scene: Option<SceneId>)
    requires Valid(s)
    ensures Valid(RemovePulse(s, t, scene).state)
  {
    if Installed(s, t).Some? && scene.Some? {
      var r := RemovePulse(s, t, scene).state;
      var gone := Registration(t, scene.value, Installed(s, t).value.id);
      assert multiset(r.registry) == multiset(s.registry) - multiset{gone};
      forall e | e in r.registry
        ensures e.id < r.nextCallback
      {
        assert e in multiset(r.registry);
      }
      var u := Other(t);
      assert Installed(r, u) == Installed(s, u) && Installed(r, t).None?;
      if Installed(s, u).Some? {
        var e := Registration(u, Installed(s, u).value.scene, Installed(s, u).value.id);
        assert e in multiset(s.registry) && e != gone;
        assert e in multiset(r.registry);
      }
      assert RegisteredAs(r, u) && RegisteredAs(r, t);
    }
  }

  lemma CheckPulseValid(s: PulseState, t: Timing, scene: Option<SceneId>)
    requires Valid(s)
    ensures Valid(CheckPulse(s, t, scene).state)
  {
    if Listeners(s, t) == [] {
      RemovePulseValid(s, t, scene);
    }
  }

  /** addLayoutPulseListener keeps every installed callback registered where it was added. */
  lemma AddKeepsValid(s: PulseState, t: Timing, l: ListenerId)
    requires Valid(s)
    ensures Valid(Add(s, t, l))
  {
    var s1 :=
      if Listeners(s, t) == [] && !s.sceneListener then
        if s.scene.None? then SceneListenerAdded(s) else AddPulse(s, t, s.scene.value)
      else s;
    if Listeners(s, t) == [] && !s.sceneListener && s.scene.Some? {
      AddPulseValid(s, t, s.scene.value);
    } else {
      ValidFrame(s, s1);
    }
    ValidFrame(s1, Add(s, t, l));
  }

  /** removeLayoutPulseListener, as written and corrected, keeps the invariant, even when it
      throws. */
  lemma RemoveKeepsValid(s: PulseState, t: Timing, l: ListenerId)
    requires Valid(s)
    ensures Valid(Remove(s, t, l).state)
    ensures Valid(RemoveCorrected(s, t, l))
  {
    var s1 := WithListeners(s, t, RemoveFirst(Listeners(s, t), l));
    ValidFrame(s, s1);
    ListUpdatedValid(s1, t, s.scene);
  }

  /** What removal does after editing a list keeps the invariant. */
  lemma ListUpdatedValid(s1: PulseState, t: Timing, scene: Option<SceneId>)
    requires Valid(s1)
    ensures Valid(SceneListenerChecked(s1)) && Valid(CheckPulse(s1, t, scene).state)
    ensures Installed(s1, t).Some? ==> Valid(CheckPulse(s1, t, Some(Installed(s1, t).value.scene)).state)
  {
    ValidFrame(s1, SceneListenerChecked(s1));
    CheckPulseValid(s1, t, scene);
    if Installed(s1, t).Some? {
      CheckPulseValid(s1, t, Some(Installed(s1, t).value.scene));
    }
  }

  /** A change of scene keeps the invariant. */
  lemma SceneChangedKeepsValid(s: PulseState, v: Option<SceneId>)
    requires Valid(s)
    ensures Valid(SceneChanged(s, v))
  {
    var s0 := s.(scene := v);
    ValidFrame(s, s0);
    if v != s.scene && s.sceneListener && v.Some? {
      var s1 := if s.pre != [] then AddPulse(s0, Before, v.value) else s0;
      if s.pre != [] {
        AddPulseValid(s0, Before, v.value);
      }
      var s2 := if s.post != [] then AddPulse(s1, After, v.value) else s1;
      if s.post != [] {
        AddPulseValid(s1, After, v.value);
      }
      ValidFrame(s2, SceneListenerRemoved(s2));
    }
  }

  /** A pulse keeps the invariant. */
  lemma PulseKeepsValid(s: PulseState, t: Timing, cb: Callback, answers: seq<bool>, thrower: Option<nat>)
    requires Valid(s) && |answers| == |Listeners(s, t)|
    ensures Valid(Pulse(s, t, cb, answers, thrower))
  {
    var c := ListenersCalled(s, t, answers, thrower);
    ValidFrame(s, c);
    CheckPulseValid(c, t, Some(cb.scene));
  }

  /** Adding the first listener of a timing when no scene listener is added installs the scene
      listener if there is no scene, and a pulse callback on the scene otherwise, and nothing
      in any other case. */
  lemma AddInstalls(s: PulseState, t: Timing, l: ListenerId)
    ensures var r := Add(s, t, l);
      if Listeners(s, t) == [] && !s.sceneListener then
        if s.scene.None? then
          r.sceneListener && r.registry == s.registry
          && Installed(r, t) == Installed(s, t) && Installed(r, Other(t)) == Installed(s, Other(t))
        else
          !r.sceneListener
          && Installed(r, t) == Some(Callback(s.nextCallback, s.scene.value))
          && Installed(r, Other(t)) == Installed(s, Other(t))
          && r.registry == s.registry + [Registration(t, s.scene.value, s.nextCallback)]
      else
        r.sceneListener == s.sceneListener && r.registry == s.registry
        && Installed(r, t) == Installed(s, t) && Installed(r, Other(t)) == Installed(s, Other(t))
  {
  }

  /** The scene listener is one-shot: on a change to a scene it installs a callback on that
      scene for each non-empty list, then removes itself; a change to no scene is ignored. */
  lemma SceneListenerOneShot(s: PulseState, v: Option<SceneId>)
    requires s.sceneListener && v != s.scene
    ensures var r := SceneChanged(s, v);
      if v.None? then r == s.(scene := None)
      else
        && !r.sceneListener
        && Installed(r, Before) == (if s.pre != [] then Some(Callback(s.nextCallback, v.value)) else s.preCallback)
        && Installed(r, After)
           == (if s.post != [] then Some(Callback(s.nextCallback + (if s.pre != [] then 1 else 0), v.value))
               else s.postCallback)
        && r.registry == s.registry
           + (if s.pre != [] then [Registration(Before, v.value, s.nextCallback)] else [])
           + (if s.post != [] then [Registration(After, v.value, s.nextCallback + (if s.pre != [] then 1 else 0))] else [])
  {
    if v.Some? {
      var s0 := s.(scene := v);
      var s1 := if s.pre != [] then AddPulse(s0, Before, v.value) else s0;
      assert s1.registry == s.registry + (if s.pre != [] then [Registration(Before, v.value, s.nextCallback)] else []);
    }
  }

  /** Without a scene listener the scene property's changes have no effect but the new value. */
  lemma SceneChangeUnheard(s: PulseState, v: Option<SceneId>)
    requires !s.sceneListener
    ensures SceneChanged(s, v) == s.(scene := v)
  {
  }

  /** The helpers after the list edit never touch the lists. */
  lemma CheckPulseKeepsLists(s: PulseState, t: Timing, scene: Option<SceneId>)
    ensures var r := CheckPulse(s, t, scene).state;
      r.pre == s.pre && r.post == s.post && r.called == s.called
    ensures var r := RemovePulse(s, t, scene).state;
      r.pre == s.pre && r.post == s.post && r.called == s.called
    ensures var r := SceneListenerChecked(s);
      r.pre == s.pre && r.post == s.post && r.called == s.called
    ensures var r := SceneListenerRemoved(s);
      r.pre == s.pre && r.post == s.post && r.called == s.called
  {
  }

  /** Removal deletes the first occurrence of the listener from its timing's list, if any,
      and leaves the other list alone, whether it returns or throws. */
  lemma RemoveDeletesFirst(s: PulseState, t: Timing, l: ListenerId)
    ensures var r := Remove(s, t, l).state;
      && Listeners(r, t) == RemoveFirst(Listeners(s, t), l)
      && Listeners(r, Other(t)) == Listeners(s, Other(t))
    ensures var r := RemoveCorrected(s, t, l);
      && Listeners(r, t) == RemoveFirst(Listeners(s, t), l)
      && Listeners(r, Other(t)) == Listeners(s, Other(t))
  {
    var s1 := WithListeners(s, t, RemoveFirst(Listeners(s, t), l));
    CheckPulseKeepsLists(s1, t, s.scene);
    if Installed(s1, t).Some? {
      CheckPulseKeepsLists(s1, t, Some(Installed(s1, t).value.scene));
    }
  }

  /** While the scene listener is added, removal never throws and removes the scene listener
      exactly when both lists are empty afterwards; the callbacks stay as they are. */
  lemma RemoveWithSceneListener(s: PulseState, t: Timing, l: ListenerId)
    requires s.sceneListener
    ensures var r := Remove(s, t, l);
      && r.Returned?
      && r.state.sceneListener == !(r.state.pre == [] && r.state.post == [])
      && r.state.registry == s.registry
      && r.state.preCallback == s.preCallback && r.state.postCallback == s.postCallback
  {
    var s1 := WithListeners(s, t, RemoveFirst(Listeners(s, t), l));
    assert s1.sceneListener && s1.registry == s.registry;
    assert s1.preCallback == s.preCallback && s1.postCallback == s.postCallback;
    assert Remove(s, t, l) == Returned(SceneListenerChecked(s1));
  }

  /** Without a scene listener, removing the last listener of a timing detaches that timing's
      callback from the scene it was added to, whatever the current scene; otherwise the
      callbacks stay as they are. */
  lemma RemoveCorrectedDetaches(s: PulseState, t: Timing, l: ListenerId)
    requires !s.sceneListener
    ensures var r := RemoveCorrected(s, t, l);
      && Installed(r, Other(t)) == Installed(s, Other(t))
      && !r.sceneListener
      && if RemoveFirst(Listeners(s, t), l) == [] then
           && Installed(r, t).None?
           && r.registry == (if Installed(s, t).None? then s.registry
                             else RemoveFirst(s.registry, Registration(t, Installed(s, t).value.scene, Installed(s, t).value.id)))
         else Installed(r, t) == Installed(s, t) && r.registry == s.registry
  {
    var s1 := WithListeners(s, t, RemoveFirst(Listeners(s, t), l));
    assert !s1.sceneListener && s1.registry == s.registry;
    assert Installed(s1, t) == Installed(s, t) && Installed(s1, Other(t)) == Installed(s, Other(t));
    assert Listeners(s1, t) == RemoveFirst(Listeners(s, t), l);
    match Installed(s1, t) {
      case None =>
        assert RemoveCorrected(s, t, l) == s1;
      case Some(cb) =>
        assert RemoveCorrected(s, t, l) == CheckPulse(s1, t, Some(cb.scene)).state;
    }
  }

  /** When the current scene is the one the callback was added to, or no callback is installed,
      the source's removal is the corrected one. */
  lemma RemoveAgrees(s: PulseState, t: Timing, l: ListenerId)
    requires Installed(s, t).None? || s.scene == Some(Installed(s, t).value.scene)
    ensures Remove(s, t, l) == Returned(RemoveCorrected(s, t, l))
  {
  }

  /** The remove helpers are idempotent. */
  lemma RemoveHelpersIdempotent(s: PulseState, t: Timing, scene: SceneId)
    ensures SceneListenerRemoved(SceneListenerRemoved(s)) == SceneListenerRemoved(s)
    ensures SceneListenerChecked(SceneListenerChecked(s)) == SceneListenerChecked(s)
    ensures var once := RemovePulse(s, t, Some(scene));
      once.Returned? && RemovePulse(once.state, t, Some(scene)) == once
    ensures var once := CheckPulse(s, t, Some(scene));
      once.Returned? && CheckPulse(once.state, t, Some(scene)) == once
  {
    var once := RemovePulse(s, t, Some(scene));
    assert Installed(once.state, t).None?;
  }

  lemma {:induction false} FilterSnoc(xs: seq<ListenerId>, keep: seq<bool>, x: ListenerId, k: bool)
    requires |keep| == |xs|
    ensures Filter(xs + [x], keep + [k]) == Filter(xs, keep) + (if k then [x] else [])
  {
    assert (xs + [x])[..|xs|] == xs;
    assert (keep + [k])[..|xs|] == keep;
  }

  /** callListeners keeps exactly the listeners that answered true. */
  lemma {:induction false} FilterMembers(xs: seq<ListenerId>, keep: seq<bool>, x: ListenerId)
    requires |keep| == |xs|
    ensures x in Filter(xs, keep) <==> exists i :: 0 <= i < |xs| && xs[i] == x && keep[i]
    decreases |xs|
  {
    if xs != [] {
      var n := |xs| - 1;
      FilterMembers(xs[..n], keep[..n], x);
      if x in Filter(xs, keep) && x !in Filter(xs[..n], keep[..n]) {
        assert xs[n] == x && keep[n];
      }
      if exists i :: 0 <= i < |xs| && xs[i] == x && keep[i] {
        var i :| 0 <= i < |xs| && xs[i] == x && keep[i];
        if i < n {
          assert xs[..n][i] == x && keep[..n][i];
        }
      }
    }
  }

  /** callListeners keeps the relative order: it distributes over concatenation. */
  lemma {:induction false} FilterAppend(a: seq<ListenerId>, b: seq<ListenerId>, ka: seq<bool>, kb: seq<bool>)
    requires |ka| == |a| && |kb| == |b|
    ensures Filter(a + b, ka + kb) == Filter(a, ka) + Filter(b, kb)
    decreases |b|
  {
    if b == [] {
      assert a + b == a && ka + kb == ka;
    } else {
      var n := |b| - 1;
      var b0, k0 := b[..n], kb[..n];
      var last := if kb[n] then [b[n]] else [];
      assert b == b0 + [b[n]] && kb == k0 + [kb[n]];
      calc {
        Filter(a + b, ka + kb);
        { assert a + b == (a + b0) + [b[n]] && ka + kb == (ka + k0) + [kb[n]]; }
        Filter((a + b0) + [b[n]], (ka + k0) + [kb[n]]);
        { FilterSnoc(a + b0, ka + k0, b[n], kb[n]); }
        Filter(a + b0, ka + k0) + last;
        { FilterAppend(a, b0, ka, k0); }
        Filter(a, ka) + Filter(b0, k0) + last;
        { FilterSnoc(b0, k0, b[n], kb[n]); }
        Filter(a, ka) + Filter(b, kb);
      }
    }
  }

  /** A pulse calls each listener of its timing once, in order, keeps those that answered true
      and leaves the other timing's list alone; when a listener throws, the calls stop there
      and it and the listeners after it stay in the list. */
  lemma PulseCalls(s: PulseState, t: Timing, cb: Callback, answers: seq<bool>, thrower: Option<nat>)
    requires |answers| == |Listeners(s, t)|
    ensures var r := Pulse(s, t, cb, answers, thrower);
      var xs := Listeners(s, t);
      && Listeners(r, Other(t)) == Listeners(s, Other(t))
      && (!Throws(xs, thrower) ==>
           r.called == s.called + xs && Listeners(r, t) == Filter(xs, answers))
      && (Throws(xs, thrower) ==>
           var k := thrower.value;
           r.called == s.called + xs[..k + 1]
           && Listeners(r, t) == Filter(xs[..k], answers[..k]) + xs[k..])
  {
    var xs := Listeners(s, t);
    var c := ListenersCalled(s, t, answers, thrower);
    CheckPulseKeepsLists(c, t, Some(cb.scene));
  }

  /** A pulse that empties its list detaches the installed callback from the scene the running
      callback captured; one where a listener stays, or one that throws, changes no callback. */
  lemma PulseDetaches(s: PulseState, t: Timing, answers: seq<bool>, thrower: Option<nat>)
    requires Installed(s, t).Some? && |answers| == |Listeners(s, t)|
    ensures var cb := Installed(s, t).value;
      var r := Pulse(s, t, cb, answers, thrower);
      var reg := Registration(t, cb.scene, cb.id);
      if !Throws(Listeners(s, t), thrower) && Filter(Listeners(s, t), answers) == [] then
        && Installed(r, t).None?
        && multiset(r.registry) == multiset(s.registry) - multiset{reg}
        && (multiset(s.registry)[reg] == 1 ==> reg !in r.registry)
      else Installed(r, t) == Installed(s, t) && r.registry == s.registry
  {
    var c := ListenersCalled(s, t, answers, thrower);
    assert Installed(c, t) == Installed(s, t) && c.registry == s.registry;
  }

  // ----- findings -----

  /** As written: after the view leaves its scene, removing the last listener throws and
      leaves the callback installed and registered. */
  lemma RemoveAfterSceneLostThrows()
    ensures var s := SceneChanged(Add(Fresh(Some(7)), Before, 1), None);
      var r := Remove(s, Before, 1);
      && r.ThrewNullPointer?
      && r.state.preCallback == Some(Callback(0, 7))
      && Registration(Before, 7, 0) in r.state.registry
  {
    var s := SceneChanged(Add(Fresh(Some(7)), Before, 1), None);
    assert s.pre == [1] && !s.sceneListener && s.preCallback == Some(Callback(0, 7));
    assert RemoveFirst(s.pre, 1) == [];
  }

  /** As written: after the view moves to another scene, removing the last listener clears the
      field but leaves the callback registered with the first scene. */
  lemma RemoveAfterSceneMovedLeaks()
    ensures var s := SceneChanged(Add(Fresh(Some(7)), Before, 1), Some(8));
      var r := Remove(s, Before, 1);
      && r.Returned?
      && r.state.preCallback == None
      && Registration(Before, 7, 0) in r.state.registry
  {
    var s := SceneChanged(Add(Fresh(Some(7)), Before, 1), Some(8));
    assert s.pre == [1] && !s.sceneListener && s.preCallback == Some(Callback(0, 7));
    assert s.registry == [Registration(Before, 7, 0)];
    assert RemoveFirst(s.pre, 1) == [];
    assert RemoveFirst(s.registry, Registration(Before, 8, 0)) == s.registry;
  }

  /** Corrected: in both situations the callback is detached from scene 7 and nothing throws. */
  lemma RemoveCorrectedExamples()
    ensures var s := SceneChanged(Add(Fresh(Some(7)), Before, 1), None);
      var r := RemoveCorrected(s, Before, 1);
      r.preCallback == None && r.registry == []
    ensures var s := SceneChanged(Add(Fresh(Some(7)), Before, 1), Some(8));
      var r := RemoveCorrected(s, Before, 1);
      r.preCallback == None && r.registry == []
  {
    var a := Add(Fresh(Some(7)), Before, 1);
    assert a == PulseState(Some(7), false, Some(Callback(0, 7)), None, [1], [], [Registration(Before, 7, 0)], 1, []);
    assert SceneChanged(a, None) == a.(scene := None);
    assert SceneChanged(a, Some(8)) == a.(scene := Some(8));
    RemoveCorrectedLone(None);
    RemoveCorrectedLone(Some(8));
  }

  /** Corrected: removing the only BEFORE listener, whose callback is on scene 7, leaves no
      callback and no registration whatever the current scene. */
  lemma RemoveCorrectedLone(v: Option<SceneId>)
    ensures var s := PulseState(v, false, Some(Callback(0, 7)), None, [1], [], [Registration(Before, 7, 0)], 1, []);
      var r := RemoveCorrected(s, Before, 1);
      r.preCallback == None && r.registry == []
  {
    var s := PulseState(v, false, Some(Callback(0, 7)), None, [1], [], [Registration(Before, 7, 0)], 1, []);
    RemoveCorrectedDetaches(s, Before, 1);
    assert RemoveFirst(s.pre, 1) == [];
  }

  /** As written: a listener that outlives its list's emptying keeps the callback on scene 7
      while the scene listener is added; when the view then reaches scene 8, the scene
      listener installs a new callback over it, and the old one stays registered with
      scene 7, out of reach of every later removal. */
  lemma SceneListenerOverwritesCallback()
    ensures var s1 := SceneChanged(Add(Fresh(Some(7)), Before, 1), None);
      var s2 := Remove(Add(s1, After, 2), Before, 1);
      var r := SceneChanged(Add(s2.state, Before, 3), Some(8));
      && s2.Returned?
      && r.preCallback == Some(Callback(1, 8))
      && Registration(Before, 7, 0) in r.registry
  {
    ProbeSetup();
  }

  /** The run of SceneListenerOverwritesCallback up to the last scene change: the BEFORE
      callback on scene 7 is still installed and registered, with the scene listener added. */
  lemma ProbeSetup()
    ensures var s1 := SceneChanged(Add(Fresh(Some(7)), Before, 1), None);
      var s2 := Remove(Add(s1, After, 2), Before, 1);
      && s2.Returned?
      && Add(s2.state, Before, 3)
         == PulseState(None, true, Some(Callback(0, 7)), None, [3], [2], [Registration(Before, 7, 0)], 1, [])
  {
    var s1 := SceneChanged(Add(Fresh(Some(7)), Before, 1), None);
    assert s1 == PulseState(None, false, Some(Callback(0, 7)), None, [1], [], [Registration(Before, 7, 0)], 1, []);
    var a := Add(s1, After, 2);
    assert a == s1.(sceneListener := true, post := [2]);
    assert RemoveFirst(a.pre, 1) == [];
    var s2 := Remove(a, Before, 1);
    assert s2 == Returned(a.(pre := []));
  }

  /** One step of the corrected scene listener removes one registration of the callback it
      replaces. */
  lemma ReinstallOwnCount(s: PulseState, t: Timing, scene: SceneId)
    requires Listeners(s, t) != [] && Installed(s, t).Some? && RegisteredAs(s, t)
    ensures var reg := Registration(t, Installed(s, t).value.scene, Installed(s, t).value.id);
      multiset(Reinstall(s, t, scene).registry)[reg] == multiset(s.registry)[reg] - 1
  {
    var reg := Registration(t, Installed(s, t).value.scene, Installed(s, t).value.id);
    assert reg in multiset(s.registry);
    assert Registration(t, scene, s.nextCallback) != reg;
  }

  /** It leaves alone every registration in use other than that callback's. */
  lemma ReinstallOtherCount(s: PulseState, t: Timing, scene: SceneId, reg: Registration)
    requires reg.id < s.nextCallback && reg !in InstalledRegistration(s, t)
    ensures multiset(Reinstall(s, t, scene).registry)[reg] == multiset(s.registry)[reg]
  {
    if Listeners(s, t) != [] {
      assert Registration(t, scene, s.nextCallback) != reg;
    }
  }

  lemma ReinstallValid(s: PulseState, t: Timing, scene: SceneId)
    requires Valid(s)
    ensures Valid(Reinstall(s, t, scene))
  {
    if Listeners(s, t) != [] {
      InstallValid(s, t, scene);
    }
  }

  /** Corrected: whenever the scene listener installs a callback for a timing that still has
      one, one registration of the old callback goes from the scene it captured. */
  lemma SceneChangedCorrectedDetaches(s: PulseState, v: Option<SceneId>, t: Timing)
    requires Valid(s) && s.sceneListener && v.Some? && v != s.scene
    requires Listeners(s, t) != [] && Installed(s, t).Some?
    ensures var cb := Installed(s, t).value;
      var reg := Registration(t, cb.scene, cb.id);
      multiset(SceneChangedCorrected(s, v).registry)[reg] == multiset(s.registry)[reg] - 1
  {
    var s0 := s.(scene := v);
    assert SceneChangedCorrected(s, v).registry
      == Reinstall(Reinstall(s0, Before, v.value), After, v.value).registry;
    assert Installed(s0, t) == Installed(s, t) && s0.registry == s.registry && RegisteredAs(s0, t);
    if t == Before {
      ReinstallBothBefore(s0, v.value);
    } else {
      ReinstallBothAfter(s0, v.value);
    }
  }

  /** The two steps of the corrected scene listener drop one copy of the BEFORE callback's
      registration. */
  lemma ReinstallBothBefore(s0: PulseState, scene: SceneId)
    requires s0.pre != [] && s0.preCallback.Some? && RegisteredAs(s0, Before)
    ensures var cb := s0.preCallback.value;
      var reg := Registration(Before, cb.scene, cb.id);
      multiset(Reinstall(Reinstall(s0, Before, scene), After, scene).registry)[reg]
        == multiset(s0.registry)[reg] - 1
  {
    var cb := s0.preCallback.value;
    var reg := Registration(Before, cb.scene, cb.id);
    var s1 := Reinstall(s0, Before, scene);
    ReinstallOwnCount(s0, Before, scene);
    ReinstallOtherCount(s1, After, scene, reg);
  }

  /** The two steps of the corrected scene listener drop one copy of the AFTER callback's
      registration. */
  lemma ReinstallBothAfter(s0: PulseState, scene: SceneId)
    requires s0.post != [] && s0.postCallback.Some? && RegisteredAs(s0, After)
    ensures var cb := s0.postCallback.value;
      var reg := Registration(After, cb.scene, cb.id);
      multiset(Reinstall(Reinstall(s0, Before, scene), After, scene).registry)[reg]
        == multiset(s0.registry)[reg] - 1
  {
    var cb := s0.postCallback.value;
    var reg := Registration(After, cb.scene, cb.id);
    var s1 := Reinstall(s0, Before, scene);
    ReinstallOtherCount(s0, Before, scene, reg);
    assert RegisteredAs(s1, After) by {
      assert Installed(s1, After) == Installed(s0, After);
      assert reg in multiset(s1.registry);
    }
    ReinstallOwnCount(s1, After, scene);
  }

  /** Where no callback is installed for a non-empty list, the corrected reaction is the
      source's. */
  lemma SceneChangedCorrectedAgrees(s: PulseState, v: Option<SceneId>)
    requires s.pre == [] || s.preCallback.None?
    requires s.post == [] || s.postCallback.None?
    ensures SceneChangedCorrected(s, v) == SceneChanged(s, v)
  {
  }

  /** The corrected reaction keeps the invariant. */
  lemma SceneChangedCorrectedKeepsValid(s: PulseState, v: Option<SceneId>)
    requires Valid(s)
    ensures Valid(SceneChangedCorrected(s, v))
  {
    var s0 := s.(scene := v);
    ValidFrame(s, s0);
    if v != s.scene && s.sceneListener && v.Some? {
      var s1 := Reinstall(s0, Before, v.value);
      ReinstallValid(s0, Before, v.value);
      var s2 := Reinstall(s1, After, v.value);
      ReinstallValid(s1, After, v.value);
      ValidFrame(s2, SceneListenerRemoved(s2));
    }
  }

  lemma InstallValid(s: PulseState, t: Timing, scene: SceneId)
    requires Valid(s)
    ensures Valid(Install(s, t, scene))
  {
    var s1 := match Installed(s, t)
      case None => s
      case Some(cb) => RemovePulse(s, t, Some(cb.scene)).state;
    RemovePulseValid(s, t, if Installed(s, t).Some? then Some(Installed(s, t).value.scene) else None);
    AddPulseValid(s1, t, scene);
  }

  /** Corrected: in the situation above, scene 7 keeps no registration. */
  lemma SceneChangedCorrectedExample()
    ensures var s1 := SceneChanged(Add(Fresh(Some(7)), Before, 1), None);
      var s2 := Remove(Add(s1, After, 2), Before, 1);
      var r := SceneChangedCorrected(Add(s2.state, Before, 3), Some(8));
      && r.preCallback == Some(Callback(1, 8))
      && r.registry == [Registration(Before, 8, 1), Registration(After, 8, 2)]
  {
    ProbeSetup();
    ProbeCorrectedStep();
  }

  /** The corrected scene listener on the state ProbeSetup reaches, moving to scene 8. */
  lemma ProbeCorrectedStep()
    ensures var b := PulseState(None, true, Some(Callback(0, 7)), None, [3], [2], [Registration(Before, 7, 0)], 1, []);
      var r := SceneChangedCorrected(b, Some(8));
      && r.preCallback == Some(Callback(1, 8))
      && r.registry == [Registration(Before, 8, 1), Registration(After, 8, 2)]
  {
    var b := PulseState(None, true, Some(Callback(0, 7)), None, [3], [2], [Registration(Before, 7, 0)], 1, []);
    var b0 := b.(scene := Some(8));
    assert RemoveFirst(b0.registry, Registration(Before, 7, 0)) == [];
    var c := RemovePulse(b0, Before, Some(7)).state;
    assert c == b0.(preCallback := None, registry := []);
    var d := Reinstall(b0, Before, 8);
    assert d == c.(preCallback := Some(Callback(1, 8)), registry := [Registration(Before, 8, 1)], nextCallback := 2);
    var e := Reinstall(d, After, 8);
    assert e == d.(postCallback := Some(Callback(2, 8)),
                   registry := [Registration(Before, 8, 1), Registration(After, 8, 2)], nextCallback := 3);
  }

  /** As written: a removal while the scene listener is added leaves the callback installed
      (it only checks the scene listener), so once both lists are empty and the view is on
      scene 8, the first new listener's callback overwrites the one still registered on
      scene 7. */
  lemma AddOverwritesCallback()
    ensures var s1 := SceneChanged(Add(Fresh(Some(7)), Before, 1), None);
      var s2 := Remove(Add(s1, After, 2), Before, 1);
      var s3 := Remove(s2.state, After, 2);
      var r := Add(SceneChanged(s3.state, Some(8)), Before, 3);
      && s2.Returned? && s3.Returned?
      && r.preCallback == Some(Callback(1, 8))
      && r.registry == [Registration(Before, 7, 0), Registration(Before, 8, 1)]
  {
    AddProbeSetup();
  }

  /** The run of AddOverwritesCallback up to the last addition: no scene listener, both lists
      empty, and the BEFORE callback on scene 7 still installed and registered. */
  lemma AddProbeSetup()
    ensures var s1 := SceneChanged(Add(Fresh(Some(7)), Before, 1), None);
      var s2 := Remove(Add(s1, After, 2), Before, 1);
      var s3 := Remove(s2.state, After, 2);
      && s2.Returned? && s3.Returned?
      && SceneChanged(s3.state, Some(8))
         == PulseState(Some(8), false, Some(Callback(0, 7)), None, [], [], [Registration(Before, 7, 0)], 1, [])
  {
    ProbeSetup();
    var a := PulseState(None, true, Some(Callback(0, 7)), None, [], [2], [Registration(Before, 7, 0)], 1, []);
    assert RemoveFirst(a.post, 2) == [];
    assert Remove(a, After, 2) == Returned(a.(post := [], sceneListener := false));
  }

  /** Corrected: in that run the callback on scene 7 is detached and only the new one stays
      registered. */
  lemma AddCorrectedExample()
    ensures var b := PulseState(Some(8), false, Some(Callback(0, 7)), None, [], [], [Registration(Before, 7, 0)], 1, []);
      var r := AddCorrected(b, Before, 3);
      && r.preCallback == Some(Callback(1, 8))
      && r.registry == [Registration(Before, 8, 1)]
  {
    var b := PulseState(Some(8), false, Some(Callback(0, 7)), None, [], [], [Registration(Before, 7, 0)], 1, []);
    assert RemoveFirst(b.registry, Registration(Before, 7, 0)) == [];
    assert RemovePulse(b, Before, Some(7)).state == b.(preCallback := None, registry := []);
  }

  /** Corrected: when the first listener of a timing is added on a scene while a callback is
      still installed for it, one registration of that callback goes from the scene it
      captured, and a fresh callback on the current scene takes its place. */
  lemma AddCorrectedDetaches(s: PulseState, t: Timing, l: ListenerId)
    requires Valid(s) && Listeners(s, t) == [] && !s.sceneListener && s.scene.Some?
    requires Installed(s, t).Some?
    ensures var cb := Installed(s, t).value;
      var reg := Registration(t, cb.scene, cb.id);
      var r := AddCorrected(s, t, l);
      && multiset(r.registry)[reg] == multiset(s.registry)[reg] - 1
      && Installed(r, t) == Some(Callback(s.nextCallback, s.scene.value))
  {
    var cb := Installed(s, t).value;
    var reg := Registration(t, cb.scene, cb.id);
    assert reg in multiset(s.registry);
    assert Registration(t, s.scene.value, s.nextCallback) != reg;
    var s1 := Install(s, t, s.scene.value);
    assert AddCorrected(s, t, l) == WithListeners(s1, t, [l]);
  }

  /** Where the addition installs nothing, or no callback is left installed, the corrected
      addition is the source's. */
  lemma AddCorrectedAgrees(s: PulseState, t: Timing, l: ListenerId)
    requires Listeners(s, t) != [] || s.sceneListener || Installed(s, t).None?
    ensures AddCorrected(s, t, l) == Add(s, t, l)
  {
  }

  /** The corrected addition keeps the invariant. */
  lemma AddCorrectedKeepsValid(s: PulseState, t: Timing, l: ListenerId)
    requires Valid(s)
    ensures Valid(AddCorrected(s, t, l))
  {
    var s1 :=
      if Listeners(s, t) == [] && !s.sceneListener then
        if s.scene.None? then SceneListenerAdded(s) else Install(s, t, s.scene.value)
      else s;
    if Listeners(s, t) == [] && !s.sceneListener && s.scene.Some? {
      InstallValid(s, t, s.scene.value);
    } else {
      ValidFrame(s, s1);
    }
    ValidFrame(s1, AddCorrected(s, t, l));
  }

  /** One step of callListeners' iterator over the original list xs: the cursor sits after
      the kept listeners done, on xs[j]; it deletes there, or steps over it. */
  lemma CursorStep(xs: seq<ListenerId>, keep: seq<bool>, j: nat, done: seq<ListenerId>)
    requires |keep| == |xs| && j < |xs| && done == Filter(xs[..j], keep[..j])
    ensures var list := done + xs[j..];
      && list[|done|] == xs[j]
      && Filter(xs[..j + 1], keep[..j + 1]) == done + (if keep[j] then [xs[j]] else [])
      && (if keep[j] then list == (done + [xs[j]]) + xs[j + 1..]
          else list[..|done|] + list[|done| + 1..] == done + xs[j + 1..])
      && xs[..j + 1] == xs[..j] + [xs[j]]
  {
    var list := done + xs[j..];
    FilterSnoc(xs[..j], keep[..j], xs[j], keep[j]);
    assert xs[..j + 1] == xs[..j] + [xs[j]] && keep[..j + 1] == keep[..j] + [keep[j]];
    assert list[..|done|] == done;
    assert list[|done| + 1..] == xs[j + 1..];
    assert xs[j..] == [xs[j]] + xs[j + 1..];
  }

  /** Where the iterator stops when the listener at position thrower throws. */
  lemma StopsAt(xs: seq<ListenerId>, keep: seq<bool>, thrower: Option<nat>)
    requires |keep| == |xs| && Throws(xs, thrower)
    ensures var k := thrower.value;
      && Survivors(xs, keep, thrower) == Filter(xs[..k], keep[..k]) + xs[k..]
      && CalledUpTo(xs, thrower) == xs[..k + 1]
  {
  }

  /** When a listener throws, it and every listener after it stay at the end of the list,
      in order. */
  lemma SurvivorsKeepRest(xs: seq<ListenerId>, keep: seq<bool>, thrower: Option<nat>)
    requires |keep| == |xs| && Throws(xs, thrower)
    ensures var r := Survivors(xs, keep, thrower);
      var k := thrower.value;
      |xs| - k <= |r| && r[|r| - (|xs| - k)..] == xs[k..]
  {
    var k := thrower.value;
    var f := Filter(xs[..k], keep[..k]);
    assert Survivors(xs, keep, thrower) == f + xs[k..];
  }

  /** The iterator loop of callListeners on a list xs: the cursor i deletes the listener
      under it when its call answers false and steps over it otherwise; the loop ends early
      when the call at position thrower throws. It returns the list left, the listeners
      called, in order, and whether every call returned. */
  method FilterInPlace(xs: seq<ListenerId>, answers: seq<bool>, thrower: Option<nat>)
    returns (list: seq<ListenerId>, calls: seq<ListenerId>, ok: bool)
    requires |answers| == |xs|
    ensures list == Survivors(xs, answers, thrower)
    ensures calls == CalledUpTo(xs, thrower)
    ensures ok == !Throws(xs, thrower)
  {
    list := xs;
    calls := [];
    ok := true;
    var i := 0;
    var j := 0;
    ghost var done: seq<ListenerId> := [];
    while j < |xs| && thrower != Some(j)
      invariant 0 <= j <= |xs|
      invariant !(thrower.Some? && thrower.value < j)
      invariant done == Filter(xs[..j], answers[..j])
      invariant i == |done| && list == done + xs[j..]
      invariant calls == xs[..j]
    {
      CursorStep(xs, answers, j, done);
      calls := calls + [list[i]];
      if !answers[j] {
        list := list[..i] + list[i + 1..];
      } else {
        done := done + [xs[j]];
        i := i + 1;
      }
      j := j + 1;
    }
    if j < |xs| {
      // the call to the listener under the cursor throws, and the loop is left
      CursorStep(xs, answers, j, done);
      calls := calls + [list[i]];
      ok := false;
      StopsAt(xs, answers, thrower);
    } else {
      assert xs[..j] == xs && answers[..j] == answers;
    }
  }

  // ----- the class -----

  class ChildView {
    var scene: Option<SceneId>
    var sceneListener: bool
    var preCallback: Option<Callback>
    var postCallback: Option<Callback>
    var pre: seq<ListenerId>
    var post: seq<ListenerId>
    /** The scenes' pulse listener lists, as far as this view's callbacks go. */
    var registry: seq<Registration>
    var nextCallback: nat
    ghost var called: seq<ListenerId>

    ghost function Model(): PulseState
      reads this
    {
      PulseState(scene, sceneListener, preCallback, postCallback, pre, post, registry, nextCallback, called)
    }

    constructor (scene: Option<SceneId>)
      ensures Model() == Fresh(scene)
    {
      this.scene := scene;
      sceneListener := false;
      preCallback := None;
      postCallback := None;
      pre := [];
      post := [];
      registry := [];
      nextCallback := 0;
      called := [];
    }

    function ListenersOf(t: Timing): seq<ListenerId>
      reads this
    {
      if t == Before then pre else post
    }

    method SetListeners(t: Timing, l: seq<ListenerId>)
      modifies this
      ensures Model() == WithListeners(old(Model()), t, l)
    {
      if t == Before { pre := l; } else { post := l; }
    }

    method SetInstalled(t: Timing, c: Option<Callback>)
      modifies this
      ensures Model() == WithInstalled(old(Model()), t, c)
    {
      if t == Before { preCallback := c; } else { postCallback := c; }
    }

    /** addLayoutPulseListener(timing, listener). */
    method AddLayoutPulseListener(t: Timing, l: ListenerId)
      modifies this
      ensures Model() == Add(old(Model()), t, l)
    {
      var current := scene;
      if ListenersOf(t) == [] && !sceneListener {
        if current.None? {
          AddSceneListener();
        } else {
          AddPulseListener(t, current.value);
        }
      }
      SetListeners(t, ListenersOf(t) + [l]);
    }

    /** removeLayoutPulseListener(timing, listener); npe tells whether it threw. */
    method RemoveLayoutPulseListener(t: Timing, l: ListenerId) returns (npe: bool)
      modifies this
      ensures Model() == Remove(old(Model()), t, l).state
      ensures npe == Remove(old(Model()), t, l).ThrewNullPointer?
    {
      var current := scene;
      SetListeners(t, RemoveFirst(ListenersOf(t), l));
      npe := false;
      if !sceneListener {
        npe := CheckPulseListener(t, current);
      } else {
        CheckSceneListener();
      }
    }

    method AddSceneListener()
      modifies this
      ensures Model() == SceneListenerAdded(old(Model()))
    {
      sceneListener := true;
    }

    method CheckSceneListener()
      modifies this
      ensures Model() == SceneListenerChecked(old(Model()))
    {
      if pre == [] && post == [] {
        RemoveSceneListener();
      }
    }

    method RemoveSceneListener()
      modifies this
      ensures Model() == SceneListenerRemoved(old(Model()))
    {
      if sceneListener {
        sceneListener := false;
      }
    }

    method AddPulseListener(t: Timing, s: SceneId)
      modifies this
      ensures Model() == AddPulse(old(Model()), t, s)
    {
      SetInstalled(t, Some(Callback(nextCallback, s)));
      registry := registry + [Registration(t, s, nextCallback)];
      nextCallback := nextCallback + 1;
    }

    method CheckPulseListener(t: Timing, s: Option<SceneId>) returns (npe: bool)
      modifies this
      ensures Model() == CheckPulse(old(Model()), t, s).state
      ensures npe == CheckPulse(old(Model()), t, s).ThrewNullPointer?
    {
      npe := false;
      if ListenersOf(t) == [] {
        npe := RemovePulseListener(t, s);
      }
    }

    method RemovePulseListener(t: Timing, s: Option<SceneId>) returns (npe: bool)
      modifies this
      ensures Model() == RemovePulse(old(Model()), t, s).state
      ensures npe == RemovePulse(old(Model()), t, s).ThrewNullPointer?
    {
      npe := false;
      var installed := if t == Before then preCallback else postCallback;
      if installed.Some? {
        if s.None? {
          npe := true;
          return;
        }
        registry := RemoveFirst(registry, Registration(t, s.value, installed.value.id));
        SetInstalled(t, None);
      }
    }

    /** callListeners(listeners): each listener of timing t is called in turn, and removed
        when its onLayoutPulse() returns false; answers[j] is what the j-th call returns,
        and the call at position thrower, if any, throws instead; ok tells whether none did. */
    method CallListeners(t: Timing, answers: seq<bool>, thrower: Option<nat>) returns (ok: bool)
      requires |answers| == |Listeners(Model(), t)|
      modifies this
      ensures Model() == ListenersCalled(old(Model()), t, answers, thrower)
      ensures ok == !Throws(Listeners(old(Model()), t), thrower)
    {
      var kept, calls;
      kept, calls, ok := FilterInPlace(ListenersOf(t), answers, thrower);
      SetListeners(t, kept);
      called := called + calls;
    }

    /** A pulse of cb.scene runs the callback cb of timing t: callListeners, then
        checkPre/PostLayoutPulseListener on the captured scene; threw tells whether a
        listener's exception left the callback. */
    method OnPulse(t: Timing, cb: Callback, answers: seq<bool>, thrower: Option<nat>) returns (threw: bool)
      requires |answers| == |Listeners(Model(), t)|
      modifies this
      ensures Model() == Pulse(old(Model()), t, cb, answers, thrower)
      ensures threw == Throws(Listeners(old(Model()), t), thrower)
    {
      var ok := CallListeners(t, answers, thrower);
      threw := !ok;
      if ok {
        var npe := CheckPulseListener(t, Some(cb.scene));
      }
    }

    /** The scene property changes to v and notifies the scene listener, when added. */
    method OnSceneChanged(v: Option<SceneId>)
      modifies this
      ensures Model() == SceneChanged(old(Model()), v)
    {
      var old' := scene;
      scene := v;
      if v != old' && sceneListener && v.Some? {
        if pre != [] {
          AddPulseListener(Before, v.value);
        }
        if post != [] {
          AddPulseListener(After, v.value);
        }
        RemoveSceneListener();
      }
    }
  }
}
