/** The detector registry of the gesture-typing keyboard: one gesture detector per
    keyboard layout, cached under the layout's key, with at most one of them
    "current" (bound to the alphabet keyboard on screen), a readiness flag fed by
    a subscription to the current detector's loading state, and the enable flag
    combined from the user's preference and power saving.

    Detectors are opaque: a detector is an id, creating one takes the next unused
    id, and destroying one adds it to `destroyed`. */
module Registry {
  import opened Wrappers
  import opened LayoutKey

  type DetectorId = nat

  /** The loading state a detector publishes on its state stream. */
  datatype LoadingState = NotLoaded | Loading | Loaded

  /** The subscription to a detector's state stream; `Disposed` also stands for
      the never-subscribed and the terminated-by-error subscription. */
  datatype Subscription = Disposed | Observing(detector: DetectorId)

  datatype RegistryState = RegistryState(
    enabled: bool,
    detectors: map<string, DetectorId>,
    current: Option<DetectorId>,
    ready: bool,
    subscription: Subscription,
    nextId: DetectorId,
    destroyed: set<DetectorId>)

  function Initial(): (r: RegistryState) {
    RegistryState(false, map[], None, false, Disposed, 0, {})
  }

  ghost predicate Injective(m: map<string, DetectorId>) {
    forall k1, k2 :: k1 in m && k2 in m && m[k1] == m[k2] ==> k1 == k2
  }

  /** What every operation keeps: one owner per detector, cached detectors are
      live, the current detector is cached and exists only while gesture typing
      is enabled, and "ready" needs a live subscription. */
  ghost predicate Consistent(s: RegistryState) {
    && CacheConsistent(s)
    && (s.current.Some? ==> s.enabled && s.current.value in s.detectors.Values)
    && (s.ready ==> s.subscription.Observing?)
  }

  /** The part of Consistent about the cache alone. */
  ghost predicate CacheConsistent(s: RegistryState) {
    && Injective(s.detectors)
    && (forall k :: k in s.detectors ==> s.detectors[k] < s.nextId && s.detectors[k] !in s.destroyed)
    && (forall d :: d in s.destroyed ==> d < s.nextId)
  }

  // ---------------------------------------------------------------------------
  // The operations, as functions of the state before them.

  /** The enable combiner: power saving wins over the user's preference. */
  function EffectiveEnabled(powerSaving: bool, preference: bool): (enabled: bool)
    ensures enabled <==> preference && !powerSaving
  {
    if powerSaving then false else preference
  }

  /** Disposing a live subscription runs its dispose hook, which clears "ready";
      disposing a disposed one does nothing. */
  function Dispose(s: RegistryState): (r: RegistryState) {
    if s.subscription.Observing? then s.(subscription := Disposed, ready := false) else s
  }

  /** destroyAllDetectors; note that it leaves the subscription as it is. */
  function DestroyAll(s: RegistryState): (r: RegistryState) {
    s.(detectors := map[], current := None, ready := false,
       destroyed := s.destroyed + s.detectors.Values)
  }

  /** setupGestureDetector: reuse the detector cached under the keyboard's key or
      create one and cache it; either way it becomes current and is observed. */
  function Setup(s: RegistryState, keyboard: Keyboard): (r: RegistryState) {
    var s1 := Dispose(s);
    if !s1.enabled then s1
    else
      var key := KeyForDetector(keyboard);
      if key in s1.detectors then
        var d := s1.detectors[key];
        s1.(current := Some(d), subscription := Observing(d))
      else
        var d := s1.nextId;
        s1.(detectors := s1.detectors[key := d], current := Some(d),
            subscription := Observing(d), nextId := d + 1)
  }

  /** The subscriber of the combined preference and power-saving stream. */
  function EnabledChanged(s: RegistryState, powerSaving: bool, preference: bool,
                          alphabetKeyboard: Option<Keyboard>): (r: RegistryState)
  {
    var enabled := EffectiveEnabled(powerSaving, preference);
    var s1 := Dispose(s.(enabled := enabled));
    if !enabled then DestroyAll(s1)
    else if alphabetKeyboard.Some? then Setup(s1, alphabetKeyboard.value)
    else s1
  }

  function AlphabetKeyboardSet(s: RegistryState, keyboard: Keyboard): (r: RegistryState) {
    if s.enabled then Setup(s, keyboard) else s
  }

  function SymbolsKeyboardSet(s: RegistryState): (r: RegistryState) {
    Dispose(s).(current := None, ready := false)
  }

  function AddOnsCriticalChange(s: RegistryState): (r: RegistryState) {
    DestroyAll(s)
  }

  /** onLowMemory: destroy and drop every cached detector but the current one;
      with no current detector, destroy them all. */
  function LowMemory(s: RegistryState): (r: RegistryState) {
    match s.current
    case None => DestroyAll(s)
    case Some(c) =>
      s.(detectors := map k | k in s.detectors && s.detectors[k] == c :: s.detectors[k],
         destroyed := s.destroyed + (set k | k in s.detectors && s.detectors[k] != c :: s.detectors[k]))
  }

  /** A state emitted by the observed detector. */
  function StateChanged(s: RegistryState, state: LoadingState): (r: RegistryState) {
    if s.subscription.Observing? then s.(ready := state == Loaded) else s
  }

  /** The observed detector's state stream ended with an error. */
  function StateFailed(s: RegistryState): (r: RegistryState) {
    if s.subscription.Observing? then s.(subscription := Disposed, ready := false) else s
  }

  datatype Event =
    | PreferencesChanged(powerSaving: bool, preference: bool, alphabetKeyboard: Option<Keyboard>)
    | AlphabetKeyboard(keyboard: Keyboard)
    | SymbolsKeyboard
    | AddOnsChanged
    | MemoryLow
    | DetectorState(state: LoadingState)
    | DetectorError

  function Apply(s: RegistryState, e: Event): (r: RegistryState) {
    match e
    case PreferencesChanged(p, g, k) => EnabledChanged(s, p, g, k)
    case AlphabetKeyboard(k) => AlphabetKeyboardSet(s, k)
    case SymbolsKeyboard => SymbolsKeyboardSet(s)
    case AddOnsChanged => AddOnsCriticalChange(s)
    case MemoryLow => LowMemory(s)
    case DetectorState(st) => StateChanged(s, st)
    case DetectorError => StateFailed(s)
  }

  function Run(s: RegistryState, events: seq<Event>): (r: RegistryState)
    decreases |events|
  {
    if events == [] then s else Apply(Run(s, events[..|events| - 1]), events[|events| - 1])
  }

  // ---------------------------------------------------------------------------
  // Properties.

  /** The number of detectors cached equals the number of distinct detectors. */
  lemma {:induction false} InjectiveValuesCount(m: map<string, DetectorId>)
    requires Injective(m)
    ensures |m.Values| == |m.Keys|
    decreases |m.Keys|
  {
    if m.Keys != {} {
      var k :| k in m.Keys;
      var rest := map j | j in m && j != k :: m[j];
      assert rest.Keys == m.Keys - {k};
      assert rest.Values == m.Values - {m[k]} by {
        forall v | v in m.Values - {m[k]} ensures v in rest.Values {
          var j :| j in m && m[j] == v;
          assert rest[j] == v;
        }
      }
      InjectiveValuesCount(rest);
    }
  }

  /** Ending the subscription keeps the registry consistent. */
  lemma DisposePreserves(s: RegistryState)
    requires Consistent(s)
    ensures Consistent(Dispose(s))
  {
  }

  lemma SetupPreserves(s: RegistryState, keyboard: Keyboard)
    requires Consistent(s)
    ensures Consistent(Setup(s, keyboard))
  {
    DisposePreserves(s);
    var s1 := Dispose(s);
    var key := KeyForDetector(keyboard);
    if s1.enabled && key !in s1.detectors {
      var r := Setup(s, keyboard);
      assert r.detectors == s1.detectors[key := s1.nextId];
      forall k | k in s1.detectors ensures s1.detectors[k] != s1.nextId { }
      assert s1.nextId in r.detectors.Values by { assert r.detectors[key] == s1.nextId; }
    } else if s1.enabled {
      assert s1.detectors[key] in s1.detectors.Values;
    }
  }

  lemma LowMemoryPreserves(s: RegistryState)
    requires Consistent(s)
    ensures Consistent(LowMemory(s))
  {
    if s.current.Some? {
      var c := s.current.value;
      var r := LowMemory(s);
      var k :| k in s.detectors && s.detectors[k] == c;
      assert k in r.detectors && r.detectors[k] == c;
    }
  }

  /** Every operation keeps the registry consistent. */
  lemma ApplyPreserves(s: RegistryState, e: Event)
    requires Consistent(s)
    ensures Consistent(Apply(s, e))
  {
    match e
    case PreferencesChanged(p, g, k) =>
      var s1 := Dispose(s.(enabled := EffectiveEnabled(p, g)));
      if EffectiveEnabled(p, g) && k.Some? { SetupPreserves(s1, k.value); }
    case AlphabetKeyboard(k) =>
      if s.enabled { SetupPreserves(s, k); }
    case SymbolsKeyboard =>
      DisposePreserves(s);
    case MemoryLow =>
      LowMemoryPreserves(s);
    case _ =>
  }

  lemma {:induction false} RunPreserves(s: RegistryState, events: seq<Event>)
    requires Consistent(s)
    ensures Consistent(Run(s, events))
    decreases |events|
  {
    if events != [] {
      RunPreserves(s, events[..|events| - 1]);
      ApplyPreserves(Run(s, events[..|events| - 1]), events[|events| - 1]);
    }
  }

  /** Every reachable registry is consistent. */
  lemma ReachableIsConsistent(events: seq<Event>)
    ensures Consistent(Run(Initial(), events))
  {
    RunPreserves(Initial(), events);
  }

  /** Disabling destroys every cached detector and forgets the current one; doing
      it twice is the same as doing it once. */
  lemma DisableDestroysAll(s: RegistryState, powerSaving: bool, preference: bool,
                           alphabetKeyboard: Option<Keyboard>)
    requires !EffectiveEnabled(powerSaving, preference)
    ensures var r := EnabledChanged(s, powerSaving, preference, alphabetKeyboard);
      && r.detectors == map[] && r.current == None && !r.ready && !r.enabled
      && r.subscription == Disposed
      && s.detectors.Values <= r.destroyed
      && EnabledChanged(r, powerSaving, preference, alphabetKeyboard) == r
  {
  }

  /** Enabling with an alphabet keyboard on screen sets that keyboard up. */
  lemma EnableSetsUpAlphabet(s: RegistryState, powerSaving: bool, preference: bool, keyboard: Keyboard)
    requires EffectiveEnabled(powerSaving, preference)
    ensures var r := EnabledChanged(s, powerSaving, preference, Some(keyboard));
      && r.enabled && KeyForDetector(keyboard) in r.detectors
      && r.current == Some(r.detectors[KeyForDetector(keyboard)])
  {
  }

  /** Activating a layout while enabled makes the detector cached under its key
      current; a cached detector is reused and nothing is created, otherwise
      exactly one fresh detector is added. */
  lemma SetupActivates(s: RegistryState, keyboard: Keyboard)
    requires Consistent(s) && s.enabled
    ensures var r := Setup(s, keyboard); var key := KeyForDetector(keyboard);
      && key in r.detectors && r.current == Some(r.detectors[key])
      && r.subscription == Observing(r.detectors[key]) && !r.ready
      && r.destroyed == s.destroyed
      && (key in s.detectors ==> r.detectors == s.detectors && r.nextId == s.nextId)
      && (key !in s.detectors ==>
            && r.detectors == s.detectors[key := s.nextId]
            && |r.detectors| == |s.detectors| + 1
            && r.detectors[key] !in s.detectors.Values
            && r.detectors[key] !in s.destroyed)
  {
    var key := KeyForDetector(keyboard);
    if key !in s.detectors {
      forall k | k in s.detectors ensures s.detectors[k] != s.nextId { }
    }
  }

  /** Activating the same layout twice is the same as activating it once: one
      cache entry for it and one current detector. */
  lemma SetupTwiceIsSetupOnce(s: RegistryState, keyboard: Keyboard)
    requires Consistent(s)
    ensures Setup(Setup(s, keyboard), keyboard) == Setup(s, keyboard)
  {
  }

  /** Two keyboards with different keys that are activated one after the other
      while enabled get two different detectors. */
  lemma DistinctLayoutsDistinctDetectors(s: RegistryState, a: Keyboard, b: Keyboard)
    requires Consistent(s) && s.enabled && a != b
    ensures var r1 := Setup(s, a); var r2 := Setup(r1, b);
      r1.current.Some? && r2.current.Some? && r1.current != r2.current
  {
    KeyForDetectorInjective(a, b);
    SetupPreserves(s, a);
    var r1 := Setup(s, a);
    SetupActivates(s, a);
    SetupActivates(r1, b);
    var ka, kb := KeyForDetector(a), KeyForDetector(b);
    if KeyForDetector(b) in r1.detectors {
      assert r1.detectors[ka] != r1.detectors[kb];
    }
  }

  /** Under memory pressure with a current detector, exactly the entries holding
      another detector are destroyed and dropped: one entry is left, the current
      one, and |cache| - 1 detectors are destroyed. */
  lemma LowMemoryKeepsCurrent(s: RegistryState)
    requires Consistent(s) && s.current.Some?
    ensures var r := LowMemory(s); var c := s.current.value;
      && r.current == s.current && r.enabled == s.enabled && r.ready == s.ready
      && r.detectors.Values == {c}
      && |r.detectors| == 1
      && (forall k :: k in r.detectors <==> k in s.detectors && s.detectors[k] == c)
      && r.destroyed - s.destroyed == s.detectors.Values - {c}
      && |r.destroyed - s.destroyed| == |s.detectors| - 1
  {
    var r := LowMemory(s);
    var c := s.current.value;
    var k0 :| k0 in s.detectors && s.detectors[k0] == c;
    assert r.detectors.Keys == {k0};
    assert k0 in r.detectors;
    var gone := set k | k in s.detectors && s.detectors[k] != c :: s.detectors[k];
    assert gone == s.detectors.Values - {c} by {
      forall v | v in s.detectors.Values - {c} ensures v in gone {
        var k :| k in s.detectors && s.detectors[k] == v;
      }
    }
    assert r.destroyed - s.destroyed == gone;
    InjectiveValuesCount(s.detectors);
  }

  /** Under memory pressure with no current detector, every detector goes. */
  lemma LowMemoryWithoutCurrent(s: RegistryState)
    requires s.current.None?
    ensures LowMemory(s) == DestroyAll(s)
    ensures LowMemory(s).detectors == map[] && s.detectors.Values <= LowMemory(s).destroyed
  {
  }

  /** Three cached detectors, one of them current: memory pressure destroys two
      and the current one is still cached under its key. */
  lemma LowMemoryThreeEntries(s: RegistryState, key: string)
    requires Consistent(s) && |s.detectors| == 3
    requires key in s.detectors && s.current == Some(s.detectors[key])
    ensures var r := LowMemory(s);
      |r.destroyed - s.destroyed| == 2 && key in r.detectors && r.detectors[key] == s.detectors[key]
  {
    LowMemoryKeepsCurrent(s);
  }

  /** Switching to the symbols keyboard unbinds the current detector and drops
      readiness, keeping the cache. */
  lemma SymbolsKeyboardUnbinds(s: RegistryState)
    ensures var r := SymbolsKeyboardSet(s);
      r.current == None && !r.ready && r.subscription == Disposed && r.detectors == s.detectors
  {
  }

  /** A critical add-on change empties the cache but, unlike disabling, does not
      dispose the subscription to the current detector's state. */
  lemma AddOnsChangeLeavesSubscription(s: RegistryState)
    ensures var r := AddOnsCriticalChange(s);
      r.detectors == map[] && r.current == None && !r.ready && r.subscription == s.subscription
  {
  }

  // ---------------------------------------------------------------------------
  // What the walk of onLowMemory has kept and destroyed while `pending` entries
  // of the copied cache `m` are still to be visited.

  function Kept(m: map<string, DetectorId>, c: DetectorId, pending: set<string>): (r: map<string, DetectorId>) {
    map k | k in m && (k in pending || m[k] == c) :: m[k]
  }

  function Gone(m: map<string, DetectorId>, c: DetectorId, pending: set<string>): (r: set<DetectorId>) {
    set k | k in m && k !in pending && m[k] != c :: m[k]
  }

  lemma KeptGoneStep(m: map<string, DetectorId>, c: DetectorId, pending: set<string>, k: string)
    requires k in pending && pending <= m.Keys
    ensures Kept(m, c, pending - {k}) == if m[k] != c then Kept(m, c, pending) - {k} else Kept(m, c, pending)
    ensures Gone(m, c, pending - {k}) == if m[k] != c then Gone(m, c, pending) + {m[k]} else Gone(m, c, pending)
  {
  }

  lemma KeptGoneDone(m: map<string, DetectorId>, c: DetectorId)
    ensures Kept(m, c, {}) == map k | k in m && m[k] == c :: m[k]
    ensures Gone(m, c, {}) == set k | k in m && m[k] != c :: m[k]
  {
  }

  // ---------------------------------------------------------------------------
  // The registry as the keyboard service holds it.

  class DetectorRegistry {
    var enabled: bool
    var detectors: map<string, DetectorId>
    var current: Option<DetectorId>
    var ready: bool
    var subscription: Subscription
    var nextId: DetectorId
    ghost var destroyed: set<DetectorId>

    ghost function State(): (r: RegistryState)
      reads this
    {
      RegistryState(enabled, detectors, current, ready, subscription, nextId, destroyed)
    }

    ghost predicate Valid()
      reads this
    {
      Consistent(State())
    }

    constructor ()
      ensures Valid() && State() == Initial()
    {
      enabled, detectors, current, ready := false, map[], None, false;
      subscription, nextId := Disposed, 0;
      destroyed := {};
    }

    method DisposeSubscription()
      modifies this
      ensures State() == Dispose(old(State()))
    {
      if subscription.Observing? {
        subscription := Disposed;
        ready := false;
      }
    }

    method DestroyAllDetectors()
      requires CacheConsistent(State())
      modifies this
      ensures Valid() && State() == DestroyAll(old(State()))
      ensures detectors == map[] && current == None && !ready
      ensures destroyed == old(destroyed) + old(detectors).Values
    {
      var remaining := detectors.Values;
      while remaining != {}
        invariant remaining <= old(detectors).Values
        invariant destroyed == old(destroyed) + (old(detectors).Values - remaining)
        invariant detectors == old(detectors) && current == old(current) && ready == old(ready)
        invariant enabled == old(enabled) && nextId == old(nextId) && subscription == old(subscription)
        decreases remaining
      {
        var d :| d in remaining;
        destroyed := destroyed + {d};
        remaining := remaining - {d};
      }
      detectors := map[];
      current := None;
      ready := false;
    }

    method OnAddOnsCriticalChange()
      requires Valid()
      modifies this
      ensures Valid() && State() == AddOnsCriticalChange(old(State()))
    {
      DestroyAllDetectors();
    }

    method SetupGestureDetector(keyboard: Keyboard)
      requires Valid()
      modifies this
      ensures Valid() && State() == Setup(old(State()), keyboard)
    {
      SetupPreserves(State(), keyboard);
      DisposeSubscription();
      if enabled {
        var key := KeyForDetector(keyboard);
        var d;
        if key in detectors {
          d := detectors[key];
        } else {
          d := nextId;
          nextId := nextId + 1;
          detectors := detectors[key := d];
        }
        current := Some(d);
        subscription := Observing(d);
      }
    }

    method OnGestureTypingPreferencesChanged(powerSaving: bool, preference: bool,
                                             alphabetKeyboard: Option<Keyboard>)
      requires Valid()
      modifies this
      ensures Valid() && State() == EnabledChanged(old(State()), powerSaving, preference, alphabetKeyboard)
    {
      ApplyPreserves(State(), PreferencesChanged(powerSaving, preference, alphabetKeyboard));
      enabled := EffectiveEnabled(powerSaving, preference);
      DisposeSubscription();
      if !enabled {
        DestroyAllDetectors();
      } else if alphabetKeyboard.Some? {
        SetupGestureDetector(alphabetKeyboard.value);
      }
    }

    method OnAlphabetKeyboardSet(keyboard: Keyboard)
      requires Valid()
      modifies this
      ensures Valid() && State() == AlphabetKeyboardSet(old(State()), keyboard)
    {
      if enabled {
        SetupGestureDetector(keyboard);
      }
    }

    method OnSymbolsKeyboardSet()
      requires Valid()
      modifies this
      ensures Valid() && State() == SymbolsKeyboardSet(old(State()))
    {
      DisposeSubscription();
      current := None;
      ready := false;
    }

    method OnLowMemory()
      requires Valid()
      modifies this
      ensures Valid() && State() == LowMemory(old(State()))
    {
      LowMemoryPreserves(State());
      var currentDetector := current;
      if currentDetector.Some? {
        var c := currentDetector.value;
        // the entries are copied so that removing from the cache does not disturb the walk
        var allDetectors := detectors;
        var pending := allDetectors.Keys;
        while pending != {}
          invariant pending <= allDetectors.Keys
          invariant allDetectors == old(detectors)
          invariant detectors == Kept(allDetectors, c, pending)
          invariant destroyed == old(destroyed) + Gone(allDetectors, c, pending)
          invariant enabled == old(enabled) && current == old(current) && ready == old(ready)
          invariant nextId == old(nextId) && subscription == old(subscription)
          decreases pending
        {
          var k :| k in pending;
          KeptGoneStep(allDetectors, c, pending, k);
          if allDetectors[k] != c {
            destroyed := destroyed + {allDetectors[k]};
            detectors := detectors - {k};
          }
          pending := pending - {k};
        }
        KeptGoneDone(allDetectors, c);
      } else {
        DestroyAllDetectors();
      }
    }

    method OnDetectorStateChanged(state: LoadingState)
      requires Valid()
      modifies this
      ensures Valid() && State() == StateChanged(old(State()), state)
    {
      if subscription.Observing? {
        ready := state == Loaded;
      }
    }

    method OnDetectorStateError()
      requires Valid()
      modifies this
      ensures Valid() && State() == StateFailed(old(State()))
    {
      if subscription.Observing? {
        subscription := Disposed;
        ready := false;
      }
    }
  }
}
