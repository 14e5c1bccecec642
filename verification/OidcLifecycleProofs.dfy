/** What every interleaving of reconcilers, request handlers and initializers keeps. */
module OidcLifecycleProofs {
  import opened Wrappers
  import opened OidcLifecycle

  function HolderPc(s: State): Option<Pc> {
    if s.holder.Some? then Some(s.holder.value.1) else None
  }

  // ---------------------------------------------------------------------------------------
  // Availability, and the one delegate that may still be alive.

  /** Delegate, cancel function and error always agree on whether the authenticator is up. */
  predicate Agreed(p: Published) {
    p.delegate == p.cancel && (p.delegate.Some? <==> p.error.None?)
  }

  /** From the first replacement until the new delegate is published. */
  predicate Replacing(pc: Pc) {
    match pc
    case Swapped(_, _, last) => !last
    case Cleaning(_, _, last) => !last
    case Disabled(_) => true
    case Building(_, _) => true
    case BuildRefused(_, _) => true
    case Refused(_) => true
    case Built(_, _) => true
    case _ => false
  }

  /** The delegate whose context may not be cancelled yet: the published one, or the one the
      holder of reconcileMu has in hand. */
  function Alive(c: Core, pc: Option<Pc>): Option<nat> {
    if c.published.cancel.Some? then c.published.cancel
    else if pc.None? then None
    else match pc.value
      case Swapped(_, retired, _) => retired
      case Building(_, i) => Some(i)
      case BuildRefused(_, i) => Some(i)
      case Built(_, i) => Some(i)
      case _ => None
  }

  function CleaningNow(pc: Option<Pc>): Option<nat> {
    if pc.Some? && pc.value.Cleaning? then Some(pc.value.context) else None
  }

  /** Exactly one cancel for every delegate that is not alive, and one cleanup if it was built. */
  predicate Accounted(c: Core, pc: Option<Pc>, i: nat)
    requires i < |c.delegates|
  {
    var d := c.delegates[i];
    && d.cancels == (if Alive(c, pc) == Some(i) then 0 else 1)
    && d.cleanups == (if Alive(c, pc) == Some(i) || CleaningNow(pc) == Some(i) || !d.built then 0 else 1)
  }

  /** What the holder's position says about the fields. */
  predicate HolderAgrees(c: Core, pc: Option<Pc>) {
    && Agreed(c.published)
    && (c.published.delegate.Some? ==> c.published.delegate.value < |c.delegates|
                                       && c.delegates[c.published.delegate.value].built)
    && (pc.Some? ==>
          && InRange(c, pc.value)
          && (Replacing(pc.value) ==> c.published == Down1(Initializing) && pc.value.request.Reconcile?)
          && (pc.value.Swapped? && pc.value.retired.Some? ==>
                c.published.cancel.None? && c.delegates[pc.value.retired.value].built)
          && (pc.value.Cleaning? ==> c.published.cancel.None? && c.delegates[pc.value.context].built)
          && (pc.value.Building? || pc.value.BuildRefused? ==> !c.delegates[pc.value.context].built)
          && (pc.value.Built? ==> c.delegates[pc.value.context].built))
  }

  ghost predicate Lifecycle(c: Core, pc: Option<Pc>) {
    && HolderAgrees(c, pc)
    && forall i :: 0 <= i < |c.delegates| ==> Accounted(c, pc, i)
  }

  lemma LifecycleByAdvance(build: Builder, c: Core, pc: Pc)
    requires Lifecycle(c, Some(pc)) && !pc.Unlocking?
    ensures var h := Advance(build, c, pc); Lifecycle(h.core, Some(h.pc))
  {
    var h := Advance(build, c, pc);
    forall i | 0 <= i < |h.core.delegates| ensures Accounted(h.core, Some(h.pc), i) {
      assert i < |c.delegates| ==> Accounted(c, Some(pc), i);
    }
  }

  // ---------------------------------------------------------------------------------------
  // Refinement: when nobody holds reconcileMu the fields are those of handling the finished
  // requests one at a time.

  function ExposedOf(c: Core): Exposed
    requires HolderAgrees(c, None)
  {
    if c.published.delegate.Some?
    then var d := c.delegates[c.published.delegate.value]; Up(d.key, d.bundle)
    else Down(c.published.error.value)
  }

  ghost predicate Matches(c: Core, a: Spec) {
    && HolderAgrees(c, None)
    && c.observed == a.observed
    && ExposedOf(c) == a.exposed
    && |c.delegates| == a.builds
  }

  /** The delegate being made is the newest one and belongs to the request. */
  ghost predicate Making(c: Core, a: Spec, r: Request, i: nat) {
    && i == a.builds && |c.delegates| == a.builds + 1
    && r.Reconcile? && c.delegates[i].key == r.key && c.delegates[i].bundle == r.bundle
  }

  /** How far the holder has moved the fields away from `a`, the state it found. */
  ghost predicate Refines(build: Builder, c: Core, pc: Option<Pc>, a: Spec)
    requires HolderAgrees(c, None)
  {
    if pc.None? then Matches(c, a)
    else match pc.value
      case Locked(_) => Matches(c, a)
      case Noted(r) =>
        c.observed == r.key && r.key != a.observed && Matches(c.(observed := a.observed), a)
      case Disabled(r) => c.observed == r.key && r.key != a.observed && |c.delegates| == a.builds
      case Swapped(r, _, last) =>
        if last then Matches(c, Handle(build, a, r))
        else c.observed == r.key && r.key != a.observed && |c.delegates| == a.builds
      case Cleaning(r, _, last) =>
        if last then Matches(c, Handle(build, a, r))
        else c.observed == r.key && r.key != a.observed && |c.delegates| == a.builds
      case Building(r, i) => c.observed == r.key && r.key != a.observed && Making(c, a, r, i)
      case BuildRefused(r, i) =>
        c.observed == r.key && r.key != a.observed && Making(c, a, r, i) && !build(i, r.bundle)
      case Refused(r) =>
        c.observed == r.key && r.key != a.observed && Making(c, a, r, a.builds) && !build(a.builds, r.bundle)
      case Built(r, i) =>
        c.observed == r.key && r.key != a.observed && Making(c, a, r, i) && build(i, r.bundle)
      case Unlocking(r) => Matches(c, Handle(build, a, r))
  }

  lemma RefinesByAdvance(build: Builder, c: Core, pc: Pc, a: Spec)
    requires Lifecycle(c, Some(pc)) && !pc.Unlocking? && Refines(build, c, Some(pc), a)
    ensures var h := Advance(build, c, pc);
      Lifecycle(h.core, Some(h.pc)) && Refines(build, h.core, Some(h.pc), a)
  {
    LifecycleByAdvance(build, c, pc);
  }

  lemma HandleAllSnoc(build: Builder, log: seq<Request>, r: Request)
    ensures HandleAll(build, log + [r]) == Handle(build, HandleAll(build, log), r)
  {
    assert (log + [r])[..|log|] == log;
  }

  // ---------------------------------------------------------------------------------------
  // Request handlers.

  ghost predicate ReaderAgrees(c: Core, r: Reader, storeFirst: bool) {
    && (!r.Answered? ==> r.delegate < |c.delegates|)
    && (storeFirst && r.Checked? && r.healthy ==> c.delegates[r.delegate].verifier)
    && (storeFirst && r.Loaded? && r.healthy ==> r.verifier)
    && (storeFirst ==> r != Answered(Rejection(NotReady)))
  }

  ghost predicate Initializers(c: Core, storeFirst: bool) {
    storeFirst ==> forall i :: 0 <= i < |c.delegates| && c.delegates[i].healthy ==> c.delegates[i].verifier
  }

  ghost predicate Invariant(build: Builder, s: State, storeFirst: bool) {
    && Lifecycle(s.core, HolderPc(s))
    && Refines(build, s.core, HolderPc(s), HandleAll(build, s.core.log))
    && Initializers(s.core, storeFirst)
    && forall q :: q in s.readers ==> ReaderAgrees(s.core, s.readers[q], storeFirst)
  }

  /** The holder of reconcileMu leaves the initializers' progress alone; a new delegate has none. */
  lemma AdvanceKeepsDelegates(build: Builder, c: Core, pc: Pc)
    requires InRange(c, pc) && !pc.Unlocking?
    ensures var n := Advance(build, c, pc).core;
      && n.log == c.log && |c.delegates| <= |n.delegates|
      && (forall i :: 0 <= i < |c.delegates| ==>
            n.delegates[i].verifier == c.delegates[i].verifier && n.delegates[i].healthy == c.delegates[i].healthy)
      && (forall i :: |c.delegates| <= i < |n.delegates| ==> !n.delegates[i].healthy)
  {
  }

  lemma ReadersByAdvance(c: Core, n: Core, readers: map<nat, Reader>, storeFirst: bool)
    requires |c.delegates| <= |n.delegates|
    requires forall i :: 0 <= i < |c.delegates| ==> n.delegates[i].verifier == c.delegates[i].verifier
    requires forall q :: q in readers ==> ReaderAgrees(c, readers[q], storeFirst)
    ensures forall q :: q in readers ==> ReaderAgrees(n, readers[q], storeFirst)
  {
    forall q | q in readers ensures ReaderAgrees(n, readers[q], storeFirst) {
      assert ReaderAgrees(c, readers[q], storeFirst);
    }
  }

  lemma InvariantByContinue(build: Builder, s: State, storeFirst: bool)
    requires Invariant(build, s, storeFirst) && Enabled(s, Continue, storeFirst)
    ensures Invariant(build, Next(build, s, Continue, storeFirst), storeFirst)
  {
    var pc := s.holder.value.1;
    var h := Advance(build, s.core, pc);
    RefinesByAdvance(build, s.core, pc, HandleAll(build, s.core.log));
    AdvanceKeepsDelegates(build, s.core, pc);
    ReadersByAdvance(s.core, h.core, s.readers, storeFirst);
    InvariantFromParts(build, s, h, storeFirst);
  }

  lemma InvariantFromParts(build: Builder, s: State, h: Held, storeFirst: bool)
    requires Lifecycle(h.core, Some(h.pc)) && s.holder.Some?
    requires Refines(build, h.core, Some(h.pc), HandleAll(build, h.core.log))
    requires Initializers(h.core, storeFirst)
    requires forall q :: q in s.readers ==> ReaderAgrees(h.core, s.readers[q], storeFirst)
    ensures Invariant(build, s.(core := h.core, holder := Some((s.holder.value.0, h.pc))), storeFirst)
  {
  }

  lemma InvariantByUnlock(build: Builder, s: State, storeFirst: bool)
    requires Invariant(build, s, storeFirst) && Enabled(s, Unlock, storeFirst)
    ensures Invariant(build, Next(build, s, Unlock, storeFirst), storeFirst)
  {
    var r := s.holder.value.1.request;
    var n := Next(build, s, Unlock, storeFirst);
    HandleAllSnoc(build, s.core.log, r);
    forall i | 0 <= i < |n.core.delegates| ensures Accounted(n.core, None, i) {
      assert Accounted(s.core, HolderPc(s), i);
    }
    forall q | q in n.readers ensures ReaderAgrees(n.core, n.readers[q], storeFirst) {
      assert ReaderAgrees(s.core, s.readers[q], storeFirst);
    }
  }

  /** The initializer of a delegate touches nothing the reconcilers look at. */
  lemma LifecycleByInitializer(c: Core, pc: Option<Pc>, d: nat, verifier: bool, healthy: bool)
    requires Lifecycle(c, pc) && d < |c.delegates|
    ensures Lifecycle(SetInit(c, d, verifier, healthy), pc)
    ensures ExposedOf(SetInit(c, d, verifier, healthy)) == ExposedOf(c)
  {
    var n := SetInit(c, d, verifier, healthy);
    forall i | 0 <= i < |n.delegates| ensures Accounted(n, pc, i) {
      assert Accounted(c, pc, i);
    }
  }

  lemma RefinesByInitializer(
    build: Builder, c: Core, pc: Option<Pc>, a: Spec, d: nat, verifier: bool, healthy: bool)
    requires Lifecycle(c, pc) && d < |c.delegates| && Refines(build, c, pc, a)
    ensures Lifecycle(SetInit(c, d, verifier, healthy), pc)
    ensures Refines(build, SetInit(c, d, verifier, healthy), pc, a)
  {
    LifecycleByInitializer(c, pc, d, verifier, healthy);
  }

  lemma InvariantByInitializer(build: Builder, s: State, e: Event, storeFirst: bool)
    requires Invariant(build, s, storeFirst) && Enabled(s, e, storeFirst)
    requires e.StoreVerifier? || e.ClearHealth?
    ensures Invariant(build, Next(build, s, e, storeFirst), storeFirst)
  {
    var n := Next(build, s, e, storeFirst);
    var d := n.core.delegates[e.delegate];
    RefinesByInitializer(build, s.core, HolderPc(s), HandleAll(build, s.core.log), e.delegate, d.verifier, d.healthy);
    forall q | q in n.readers ensures ReaderAgrees(n.core, n.readers[q], storeFirst) {
      assert ReaderAgrees(s.core, s.readers[q], storeFirst);
    }
  }

  lemma InvariantByRest(build: Builder, s: State, e: Event, storeFirst: bool)
    requires Invariant(build, s, storeFirst) && Enabled(s, e, storeFirst)
    requires e.Call? || e.Lock? || e.TakeSnapshot? || e.CheckHealth? || e.LoadVerifier? || e.Authenticate?
    ensures Invariant(build, Next(build, s, e, storeFirst), storeFirst)
  {
    var n := Next(build, s, e, storeFirst);
    assert n.core == s.core;
    forall i | 0 <= i < |n.core.delegates| ensures Accounted(n.core, HolderPc(n), i) {
      assert Accounted(s.core, HolderPc(s), i);
    }
    forall q | q in n.readers ensures ReaderAgrees(n.core, n.readers[q], storeFirst) {
      assert q in s.readers ==> ReaderAgrees(s.core, s.readers[q], storeFirst);
    }
  }

  lemma {:induction false} EveryRun(build: Builder, storeFirst: bool, run: seq<State>, events: seq<Event>, n: nat)
    requires IsRun(build, storeFirst, run, events) && n < |run|
    ensures Invariant(build, run[n], storeFirst)
  {
    if n > 0 {
      EveryRun(build, storeFirst, run, events, n - 1);
      var s, e := run[n - 1], events[n - 1];
      match e {
        case Continue => InvariantByContinue(build, s, storeFirst);
        case Unlock => InvariantByUnlock(build, s, storeFirst);
        case StoreVerifier(_) => InvariantByInitializer(build, s, e, storeFirst);
        case ClearHealth(_) => InvariantByInitializer(build, s, e, storeFirst);
        case _ => InvariantByRest(build, s, e, storeFirst);
      }
    }
  }

  // ---------------------------------------------------------------------------------------
  // Main results.

  /**
    At every instant at most one delegate's context is uncancelled; no delegate is cancelled
    or cleaned up more than once, and never while it is the published one; and when nobody
    holds reconcileMu every delegate but the published one has been cancelled, and has been
    cleaned up exactly when it had been built.
   */
  lemma AtMostOneLiveDelegate(
    build: Builder, storeFirst: bool, run: seq<State>, events: seq<Event>, n: nat, i: nat, j: nat)
    requires IsRun(build, storeFirst, run, events) && n < |run|
    requires i < |run[n].core.delegates| && j < |run[n].core.delegates|
    ensures var c := run[n].core;
      var d := c.delegates[i];
      && (d.cancels == 0 && c.delegates[j].cancels == 0 ==> i == j)
      && d.cleanups <= d.cancels <= 1
      && (c.published.delegate == Some(i) ==> d.cancels == 0 && d.cleanups == 0)
      && (run[n].holder.None? && c.published.delegate != Some(i) ==>
            d.cancels == 1 && d.cleanups == if d.built then 1 else 0)
  {
    EveryRun(build, storeFirst, run, events, n);
    assert Accounted(run[n].core, HolderPc(run[n]), i);
    assert Accounted(run[n].core, HolderPc(run[n]), j);
  }

  /**
    From the first replacement until a delegate has been built and published, a request that
    looks at the authenticator gets an infrastructure error; and at any time it gets one
    exactly when no delegate is published, so an unavailable authenticator never rejects.
   */
  lemma FailsClosed(build: Builder, storeFirst: bool, run: seq<State>, events: seq<Event>, n: nat)
    requires IsRun(build, storeFirst, run, events) && n < |events| && events[n].TakeSnapshot?
    ensures HolderPc(run[n]).Some? && Replacing(HolderPc(run[n]).value) ==>
      run[n + 1].readers[events[n].reader] == Answered(Infrastructure)
    ensures run[n + 1].readers[events[n].reader] == Answered(Infrastructure) <==>
      run[n].core.published.error.Some?
    ensures run[n].core.published.error.None? ==>
      exists d: nat :: d < |run[n].core.delegates| && run[n].core.delegates[d].cancels == 0
                       && run[n + 1].readers[events[n].reader] == Snapped(d)
  {
    EveryRun(build, storeFirst, run, events, n);
    var p := run[n].core.published;
    if p.error.None? {
      assert Accounted(run[n].core, HolderPc(run[n]), p.delegate.value);
    }
  }

  /** When initializers store the verifier first, an unready verifier is never a token rejection. */
  lemma UnreadyIsNeverRejection(build: Builder, run: seq<State>, events: seq<Event>, n: nat, q: nat)
    requires IsRun(build, true, run, events) && n < |run| && q in run[n].readers
    ensures run[n].readers[q] != Answered(Rejection(NotReady))
  {
    EveryRun(build, true, run, events, n);
    assert ReaderAgrees(run[n].core, run[n].readers[q], true);
  }

  /**
    What a request gets is decided by the health it saw, by the token and by whether the keys can
    be had.  For every token: it is accepted only if it is valid and the keys are there, and then
    whenever the verifier was loaded or the delegate seen healthy; a token of another issuer is
    always left to the next provider; and one of this issuer is rejected exactly when the
    delegate was seen healthy and the token is invalid or the keys are missing.
   */
  lemma HealthDecides(build: Builder, run: seq<State>, events: seq<Event>, n: nat)
    requires IsRun(build, true, run, events) && n < |events| && events[n].Authenticate?
    ensures var q := events[n].reader;
      var seen, token, keys := run[n].readers[q], events[n].token, events[n].keys;
      && q in run[n + 1].readers && run[n + 1].readers[q].Answered?
      && var answer := run[n + 1].readers[q].answer;
      && (answer.Acceptance? ==> answer == Acceptance(seen.delegate) && token == Valid && keys)
      && (token == Valid && keys && (seen.verifier || seen.healthy) ==> answer == Acceptance(seen.delegate))
      && (token == Foreign ==> answer == Rejection(ForeignIssuer))
      && (token != Foreign ==> (answer.Rejection? <==> seen.healthy && (token == Invalid || !keys)))
      && (answer.Infrastructure? ==> token != Foreign && !seen.healthy)
  {
    EveryRun(build, true, run, events, n);
    assert ReaderAgrees(run[n].core, run[n].readers[events[n].reader], true);
  }

  ghost predicate Reachable(build: Builder, storeFirst: bool, s: State) {
    exists run, events :: IsRun(build, storeFirst, run, events) && run[|events|] == s
  }

  lemma ReachStart(build: Builder, storeFirst: bool)
    ensures Reachable(build, storeFirst, INITIAL)
  {
    assert IsRun(build, storeFirst, [INITIAL], []);
  }

  lemma ReachStep(build: Builder, storeFirst: bool, s: State, e: Event)
    requires Reachable(build, storeFirst, s) && Enabled(s, e, storeFirst)
    ensures Reachable(build, storeFirst, Next(build, s, e, storeFirst))
  {
    var run, events :| IsRun(build, storeFirst, run, events) && run[|events|] == s;
    var longer := run + [Next(build, s, e, storeFirst)];
    assert IsRun(build, storeFirst, longer, events + [e]);
  }

  /** The holder of reconcileMu, alone with its request, moves on to the given state. */
  lemma ReachContinue(build: Builder, storeFirst: bool, readers: map<nat, Reader>, c: Core, pc: Pc, h: Held)
    requires Reachable(build, storeFirst, State(c, Some((0, pc)), map[], readers))
    requires InRange(c, pc) && !pc.Unlocking? && h == Advance(build, c, pc)
    ensures Reachable(build, storeFirst, State(h.core, Some((0, h.pc)), map[], readers))
  {
    ReachStep(build, storeFirst, State(c, Some((0, pc)), map[], readers), Continue);
  }

  const ROOTS := Reconcile("system-roots", None)

  lemma ReachDisabled(build: Builder, storeFirst: bool)
    ensures Reachable(build, storeFirst,
                      State(Core("system-roots", Down1(Initializing), [], []),
                            Some((0, Disabled(ROOTS))), map[], map[]))
  {
    ReachStart(build, storeFirst);
    ReachStep(build, storeFirst, INITIAL, Call(0, ROOTS));
    var called := State(CORE, None, map[0 := ROOTS], map[]);
    ReachStep(build, storeFirst, called, Lock(0));
    assert map[0 := ROOTS] - {0} == map[];
    ReachContinue(build, storeFirst, map[], CORE, Locked(ROOTS), Held(CORE.(observed := "system-roots"), Noted(ROOTS)));
    var c := Core("system-roots", Down1(Initializing), [], []);
    ReachContinue(build, storeFirst, map[], CORE.(observed := "system-roots"), Noted(ROOTS),
                  Held(c, Swapped(ROOTS, None, false)));
    ReachContinue(build, storeFirst, map[], c, Swapped(ROOTS, None, false), Held(c, Disabled(ROOTS)));
  }

  const PENDING := Delegate("system-roots", None, false, 0, 0, false, false)

  /** A delegate is published for the system roots and one request has looked it up. */
  lemma ReachSnapshot(build: Builder, storeFirst: bool)
    requires build(0, None)
    ensures Reachable(build, storeFirst,
                      State(Core("system-roots", Published(Some(0), Some(0), None), [PENDING.(built := true)], []),
                            Some((0, Swapped(ROOTS, None, true))), map[], map[0 := Snapped(0)]))
  {
    ReachDisabled(build, storeFirst);
    var down := Core("system-roots", Down1(Initializing), [], []);
    var making := down.(delegates := [PENDING]);
    var made := down.(delegates := [PENDING.(built := true)]);
    var up := made.(published := Published(Some(0), Some(0), None));
    ReachContinue(build, storeFirst, map[], down, Disabled(ROOTS), Held(making, Building(ROOTS, 0)));
    ReachContinue(build, storeFirst, map[], making, Building(ROOTS, 0), Held(made, Built(ROOTS, 0)));
    ReachContinue(build, storeFirst, map[], made, Built(ROOTS, 0), Held(up, Swapped(ROOTS, None, true)));
    ReachStep(build, storeFirst, State(up, Some((0, Swapped(ROOTS, None, true))), map[], map[]), TakeSnapshot(0));
  }

  /** The order inside the initializer is what matters: clearing the health error first lets
      an unready verifier through as a rejection. */
  lemma ClearingFirstRejects(build: Builder)
    requires build(0, None)
    ensures exists s :: Reachable(build, false, s) && 0 in s.readers && s.readers[0] == Answered(Rejection(NotReady))
  {
    ReachSnapshot(build, false);
    var s := State(Core("system-roots", Published(Some(0), Some(0), None), [PENDING.(built := true)], []),
                   Some((0, Swapped(ROOTS, None, true))), map[], map[0 := Snapped(0)]);
    ReachStep(build, false, s, ClearHealth(0));
    var s1 := Next(build, s, ClearHealth(0), false);
    ReachStep(build, false, s1, CheckHealth(0));
    var s2 := Next(build, s1, CheckHealth(0), false);
    ReachStep(build, false, s2, LoadVerifier(0));
    var s3 := Next(build, s2, LoadVerifier(0), false);
    ReachStep(build, false, s3, Authenticate(0, Valid, true));
    assert 0 in Next(build, s3, Authenticate(0, Valid, true), false).readers;
  }

  // ---------------------------------------------------------------------------------------
  // How long the delegate of a request lives.

  /** A request that holds a delegate holds a live one exactly as long as it is the one delegate
      that may still be alive: published, or in the hands of the holder of reconcileMu. */
  lemma HeldDelegateIsAliveIff(
    build: Builder, storeFirst: bool, run: seq<State>, events: seq<Event>, n: nat, q: nat)
    requires IsRun(build, storeFirst, run, events) && n < |run| && q in run[n].readers
    requires !run[n].readers[q].Answered?
    ensures var d := run[n].readers[q].delegate;
      && d < |run[n].core.delegates|
      && (run[n].core.delegates[d].cancels == 0 <==> Alive(run[n].core, HolderPc(run[n])) == Some(d))
  {
    EveryRun(build, storeFirst, run, events, n);
    assert ReaderAgrees(run[n].core, run[n].readers[q], storeFirst);
    assert Accounted(run[n].core, HolderPc(run[n]), run[n].readers[q].delegate);
  }

  /** The step in which the holder of reconcileMu cancels a delegate it has replaced. */
  predicate Retires(s: State, e: Event, d: nat) {
    && e == Continue && s.holder.Some?
    && s.holder.value.1.Swapped? && s.holder.value.1.retired == Some(d)
  }

  lemma CancelStep(build: Builder, s: State, e: Event, storeFirst: bool, d: nat)
    requires Invariant(build, s, storeFirst) && Enabled(s, e, storeFirst)
    requires d < |s.core.delegates| && s.core.delegates[d].built
    ensures var n := Next(build, s, e, storeFirst).core;
      && d < |n.delegates| && n.delegates[d].built
      && n.delegates[d].cancels == s.core.delegates[d].cancels + if Retires(s, e, d) then 1 else 0
  {
  }

  ghost predicate RetiredBetween(run: seq<State>, events: seq<Event>, m: nat, n: nat, d: nat)
    requires n <= |events| < |run|
  {
    exists k :: m < k < n && Retires(run[k], events[k], d)
  }

  lemma SnapshotIsLive(build: Builder, storeFirst: bool, run: seq<State>, events: seq<Event>, m: nat, d: nat)
    requires IsRun(build, storeFirst, run, events) && m < |events| && events[m].TakeSnapshot?
    requires run[m + 1].readers[events[m].reader] == Snapped(d)
    ensures var c := run[m + 1].core;
      d < |c.delegates| && c.delegates[d].built && c.delegates[d].cancels == 0
  {
    EveryRun(build, storeFirst, run, events, m);
    assert run[m].core.published.delegate == Some(d);
    assert Accounted(run[m].core, HolderPc(run[m]), d);
  }

  lemma RetiredSnoc(run: seq<State>, events: seq<Event>, m: nat, n: nat, d: nat)
    requires m < n < |run| == |events| + 1
    ensures RetiredBetween(run, events, m, n, d) <==>
      (n > m + 1 && (RetiredBetween(run, events, m, n - 1, d) || Retires(run[n - 1], events[n - 1], d)))
  {
  }

  /**
    A request that took its snapshot at step m holds an uncancelled delegate exactly until a
    reconcile that replaced this delegate takes its cancelling step.
   */
  lemma {:induction false} SnapshotIsCancelledIff(
    build: Builder, storeFirst: bool, run: seq<State>, events: seq<Event>, m: nat, n: nat, d: nat)
    requires IsRun(build, storeFirst, run, events) && m < n < |run| && events[m].TakeSnapshot?
    requires run[m + 1].readers[events[m].reader] == Snapped(d)
    ensures d < |run[n].core.delegates| && run[n].core.delegates[d].built
    ensures run[n].core.delegates[d].cancels == 1 <==> RetiredBetween(run, events, m, n, d)
    ensures run[n].core.delegates[d].cancels == 0 <==> !RetiredBetween(run, events, m, n, d)
  {
    RetiredSnoc(run, events, m, n, d);
    if n == m + 1 {
      SnapshotIsLive(build, storeFirst, run, events, m, d);
    } else {
      SnapshotIsCancelledIff(build, storeFirst, run, events, m, n - 1, d);
      EveryRun(build, storeFirst, run, events, n - 1);
      CancelStep(build, run[n - 1], events[n - 1], storeFirst, d);
      AtMostOneLiveDelegate(build, storeFirst, run, events, n, d, d);
    }
  }

  /** A request that took its snapshot before a replacement goes on with the old delegate, even
      after that delegate has been cancelled. */
  lemma SnapshotMayOutliveDelegate(build: Builder, storeFirst: bool)
    requires build(0, None)
    ensures exists s :: Reachable(build, storeFirst, s) && 0 in s.readers && s.readers[0] == Snapped(0)
                        && 0 < |s.core.delegates| && s.core.delegates[0].cancels == 1
                        && s.core.published.delegate.None?
  {
    ReachSnapshot(build, storeFirst);
    ReachRetirement(build, storeFirst, map[0 := Snapped(0)], PENDING.(built := true));
  }

  const MISSING := MarkUnavailable("configmap-missing", "")

  /** The state in which the first delegate has been published, for given requests in progress. */
  function PublishedFirst(d: Delegate, readers: map<nat, Reader>): State {
    State(Core("system-roots", Published(Some(0), Some(0), None), [d], []),
          Some((0, Swapped(ROOTS, None, true))), map[], readers)
  }

  /** The state in which that delegate has been replaced by nothing and cancelled. */
  function RetiredFirst(d: Delegate, readers: map<nat, Reader>): State {
    State(Core(MISSING.key, Down1(Unavailable("")), [d.(cancels := 1)], [ROOTS]),
          Some((0, Cleaning(MISSING, 0, true))), map[], readers)
  }

  lemma ReachRetirement(build: Builder, storeFirst: bool, readers: map<nat, Reader>, d: Delegate)
    requires d.cancels == 0 && Reachable(build, storeFirst, PublishedFirst(d, readers))
    ensures Reachable(build, storeFirst, RetiredFirst(d, readers))
  {
    var up := Core("system-roots", Published(Some(0), Some(0), None), [d], []);
    ReachContinue(build, storeFirst, readers, up, Swapped(ROOTS, None, true), Held(up, Unlocking(ROOTS)));
    ReachStep(build, storeFirst, State(up, Some((0, Unlocking(ROOTS))), map[], readers), Unlock);
    var idle := up.(log := [ROOTS]);
    assert up.log + [ROOTS] == [ROOTS];
    ReachStep(build, storeFirst, State(idle, None, map[], readers), Call(0, MISSING));
    ReachStep(build, storeFirst, State(idle, None, map[0 := MISSING], readers), Lock(0));
    assert map[0 := MISSING] - {0} == map[];
    ReachRetired(build, storeFirst, readers, idle, d);
  }

  lemma ReachRetired(build: Builder, storeFirst: bool, readers: map<nat, Reader>, idle: Core, d: Delegate)
    requires d.cancels == 0 && idle == Core("system-roots", Published(Some(0), Some(0), None), [d], [ROOTS])
    requires Reachable(build, storeFirst, State(idle, Some((0, Locked(MISSING))), map[], readers))
    ensures Reachable(build, storeFirst, RetiredFirst(d, readers))
  {
    var noted := idle.(observed := MISSING.key);
    ReachContinue(build, storeFirst, readers, idle, Locked(MISSING), Held(noted, Noted(MISSING)));
    var down := noted.(published := Down1(Unavailable("")));
    ReachContinue(build, storeFirst, readers, noted, Noted(MISSING), Held(down, Swapped(MISSING, Some(0), true)));
    var retired := down.(delegates := [d.(cancels := 1)]);
    ReachContinue(build, storeFirst, readers, down, Swapped(MISSING, Some(0), true),
                  Held(retired, Cleaning(MISSING, 0, true)));
  }

  // ---------------------------------------------------------------------------------------
  // When a valid token is rejected.

  const READY := PENDING.(built := true, verifier := true, healthy := true)

  /** The first delegate's initializer finishes while a request holds the delegate. */
  lemma ReachHealthy(build: Builder, readers: map<nat, Reader>)
    requires Reachable(build, true, PublishedFirst(PENDING.(built := true), readers))
    ensures Reachable(build, true, PublishedFirst(READY, readers))
  {
    var made := PENDING.(built := true);
    ReachStep(build, true, PublishedFirst(made, readers), StoreVerifier(0));
    var stored := made.(verifier := true);
    assert Next(build, PublishedFirst(made, readers), StoreVerifier(0), true) == PublishedFirst(stored, readers);
    ReachStep(build, true, PublishedFirst(stored, readers), ClearHealth(0));
  }

  /** A request has seen the first delegate healthy and loaded its verifier. */
  lemma ReachLoaded(build: Builder)
    requires build(0, None)
    ensures Reachable(build, true, PublishedFirst(READY, map[0 := Loaded(0, true, true)]))
  {
    var snapped: map<nat, Reader> := map[0 := Snapped(0)];
    var checked: map<nat, Reader> := map[0 := Checked(0, true)];
    ReachSnapshot(build, true);
    ReachHealthy(build, snapped);
    ReachStep(build, true, PublishedFirst(READY, snapped), CheckHealth(0));
    assert Next(build, PublishedFirst(READY, snapped), CheckHealth(0), true) == PublishedFirst(READY, checked);
    ReachStep(build, true, PublishedFirst(READY, checked), LoadVerifier(0));
  }

  /** A replacement between the health check and the verification can turn a valid token away:
      with the delegate cancelled and a key still to be fetched, the failure is a rejection. */
  lemma ValidTokenMayBeRejected(build: Builder)
    requires build(0, None)
    ensures exists s ::
      && Reachable(build, true, s) && Enabled(s, Authenticate(0, Valid, false), true)
      && s.core.delegates[s.readers[0].delegate].cancels == 1
      && Next(build, s, Authenticate(0, Valid, false), true).readers[0] == Answered(Rejection(VerificationFailed))
  {
    ReachLoaded(build);
    ReachRetirement(build, true, map[0 := Loaded(0, true, true)], READY);
    var s := RetiredFirst(READY, map[0 := Loaded(0, true, true)]);
    assert Enabled(s, Authenticate(0, Valid, false), true);
  }

  ghost predicate TookSnapshot(run: seq<State>, events: seq<Event>, m: nat, q: nat, d: nat)
    requires |run| == |events| + 1
  {
    && m < |events| && events[m] == TakeSnapshot(q)
    && q in run[m + 1].readers && run[m + 1].readers[q] == Snapped(d)
  }

  lemma ReaderStep(build: Builder, s: State, e: Event, storeFirst: bool, q: nat)
    requires Enabled(s, e, storeFirst)
    requires q in Next(build, s, e, storeFirst).readers && !Next(build, s, e, storeFirst).readers[q].Answered?
    ensures q in s.readers ==>
      !s.readers[q].Answered? && s.readers[q].delegate == Next(build, s, e, storeFirst).readers[q].delegate
    ensures q !in s.readers ==> e == TakeSnapshot(q) && Next(build, s, e, storeFirst).readers[q].Snapped?
  {
  }

  /** A request goes on with the delegate of its snapshot. */
  lemma {:induction false} SnapshotOf(
    build: Builder, storeFirst: bool, run: seq<State>, events: seq<Event>, n: nat, q: nat) returns (m: nat)
    requires IsRun(build, storeFirst, run, events) && n < |run|
    requires q in run[n].readers && !run[n].readers[q].Answered?
    ensures m < n && TookSnapshot(run, events, m, q, run[n].readers[q].delegate)
  {
    ReaderStep(build, run[n - 1], events[n - 1], storeFirst, q);
    if q in run[n - 1].readers {
      m := SnapshotOf(build, storeFirst, run, events, n - 1, q);
    } else {
      m := n - 1;
    }
  }

  /** Keys that are needed are missing only for delegates whose context has been cancelled. */
  ghost predicate KeysFailOnlyCancelled(build: Builder, storeFirst: bool, run: seq<State>, events: seq<Event>)
    requires IsRun(build, storeFirst, run, events)
  {
    forall i :: 0 <= i < |events| && events[i].Authenticate? && !events[i].keys ==>
      run[i].core.delegates[run[i].readers[events[i].reader].delegate].cancels > 0
  }

  /**
    A valid token is rejected exactly when the delegate was seen healthy and the keys are missing.
    If keys are missing only for cancelled delegates, then a reconcile has replaced and cancelled
    this request's delegate since its snapshot: without a replacement no valid token is rejected.
   */
  lemma ValidTokenRejectedIff(build: Builder, run: seq<State>, events: seq<Event>, n: nat)
    requires IsRun(build, true, run, events) && n < |events| && events[n].Authenticate?
    requires events[n].token == Valid
    ensures var q := events[n].reader;
      var seen := run[n].readers[q];
      && q in run[n + 1].readers && run[n + 1].readers[q].Answered?
      && (run[n + 1].readers[q].answer.Rejection? <==> seen.healthy && !events[n].keys)
      && (run[n + 1].readers[q].answer.Rejection? && KeysFailOnlyCancelled(build, true, run, events) ==>
            exists m: nat :: m < n && TookSnapshot(run, events, m, q, seen.delegate)
                             && RetiredBetween(run, events, m, n, seen.delegate))
  {
    HealthDecides(build, run, events, n);
    var q := events[n].reader;
    var d := run[n].readers[q].delegate;
    var m := SnapshotOf(build, true, run, events, n, q);
    SnapshotIsCancelledIff(build, true, run, events, m, n, d);
  }

  /** An exposed configuration is the observed one in the requests handled one at a time. */
  lemma {:induction false} ExposesObserved(build: Builder, log: seq<Request>)
    ensures var a := HandleAll(build, log); a.exposed.Up? ==> a.exposed.key == a.observed
  {
    if log != [] {
      ExposesObserved(build, log[..|log| - 1]);
    }
  }

  /**
    A published delegate was built for the configuration in `observedConfiguration`, except
    exactly between recording a new configuration and disabling the old delegate.
   */
  lemma PublishedMatchesObserved(build: Builder, storeFirst: bool, run: seq<State>, events: seq<Event>, n: nat)
    requires IsRun(build, storeFirst, run, events) && n < |run|
    requires run[n].core.published.delegate.Some?
    ensures var c := run[n].core;
      && c.published.delegate.value < |c.delegates|
      && (c.delegates[c.published.delegate.value].key == c.observed
          <==> !(HolderPc(run[n]).Some? && HolderPc(run[n]).value.Noted?))
  {
    EveryRun(build, storeFirst, run, events, n);
    var s := run[n];
    ExposesObserved(build, s.core.log);
    if s.holder.Some? {
      ExposesObserved(build, s.core.log + [s.holder.value.1.request]);
      HandleAllSnoc(build, s.core.log, s.holder.value.1.request);
    }
  }

  /** Whenever reconcileMu is free the authenticator is as if the requests had been handled
      one at a time, in the order they held it. */
  lemma SerializesReconciles(build: Builder, storeFirst: bool, run: seq<State>, events: seq<Event>, n: nat)
    requires IsRun(build, storeFirst, run, events) && n < |run| && run[n].holder.None?
    ensures Matches(run[n].core, HandleAll(build, run[n].core.log))
  {
    EveryRun(build, storeFirst, run, events, n);
  }
}
