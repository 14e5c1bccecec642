/**
  The OIDC authenticator of the service proxy while reconcilers replace its delegate and
  request handlers use it.  A step is what one goroutine does between two points where
  another can run: the sections under `mu` are single steps, while everything under
  `reconcileMu` (recording the configuration, swapping, cancelling the old delegate,
  building, publishing) is a step of its own.
 */
module OidcLifecycle {
  import opened Wrappers

  // ---------------------------------------------------------------------------------------
  // Requests to the authenticator and the state they are meant to lead to.

  /** `bundle` is absent for the host's root CAs. */
  datatype Request =
    | Reconcile(key: string, bundle: Option<string>)
    | MarkUnavailable(key: string, reason: string)

  datatype Error = Uninitialized | Initializing | BuildFailed(of: string) | Unavailable(reason: string)

  datatype Exposed = Down(error: Error) | Up(key: string, bundle: Option<string>)

  /** Outcome of the n-th construction of a delegate, for a given bundle. */
  type Builder = (nat, Option<string>) -> bool

  datatype Spec = Spec(observed: string, exposed: Exposed, builds: nat)

  const START := Spec("", Down(Uninitialized), 0)

  /** One request handled alone: a configuration already observed changes nothing. */
  function Handle(build: Builder, a: Spec, r: Request): Spec {
    if r.key == a.observed then a
    else match r
      case MarkUnavailable(key, reason) => Spec(key, Down(Unavailable(reason)), a.builds)
      case Reconcile(key, bundle) =>
        Spec(key, if build(a.builds, bundle) then Up(key, bundle) else Down(BuildFailed(key)), a.builds + 1)
  }

  function HandleAll(build: Builder, log: seq<Request>): Spec {
    if log == [] then START
    else Handle(build, HandleAll(build, log[..|log| - 1]), log[|log| - 1])
  }

  // ---------------------------------------------------------------------------------------
  // The authenticator's fields and the delegates made so far.

  /** A delegate with its context: how often it was cancelled and cleaned up, and how far
      its own background initializer has come. */
  datatype Delegate = Delegate(
    key: string, bundle: Option<string>, built: bool,
    cancels: nat, cleanups: nat, verifier: bool, healthy: bool)

  datatype Published = Published(delegate: Option<nat>, cancel: Option<nat>, error: Option<Error>)

  /** `log` lists the requests whose handling has finished, in the order they held reconcileMu. */
  datatype Core = Core(
    observed: string, published: Published, delegates: seq<Delegate>, log: seq<Request>)

  const CORE := Core("", Published(None, None, Some(Uninitialized)), [], [])

  /** Where the goroutine holding reconcileMu is; `last` marks the final replaceDelegate of a call. */
  datatype Pc =
    | Locked(request: Request)
    | Noted(request: Request)
    | Swapped(request: Request, retired: Option<nat>, last: bool)
    | Cleaning(request: Request, context: nat, last: bool)
    | Disabled(request: Request)
    | Building(request: Request, context: nat)
    | BuildRefused(request: Request, context: nat)
    | Refused(request: Request)
    | Built(request: Request, context: nat)
    | Unlocking(request: Request)

  datatype Held = Held(core: Core, pc: Pc)

  /** Delegate numbers held by the goroutine exist. */
  predicate InRange(c: Core, pc: Pc) {
    match pc
    case Swapped(_, retired, _) => retired.Some? ==> retired.value < |c.delegates|
    case Cleaning(_, i, _) => i < |c.delegates|
    case Building(_, i) => i < |c.delegates|
    case BuildRefused(_, i) => i < |c.delegates|
    case Built(_, i) => i < |c.delegates|
    case _ => true
  }

  /** After the old delegate is gone the call goes on to build, or ends. */
  function Settled(r: Request, last: bool): Pc {
    if last then Unlocking(r) else Disabled(r)
  }

  function Down1(e: Error): Published {
    Published(None, None, Some(e))
  }

  function Bump(c: Core, i: nat, cancels: nat, cleanups: nat): Core
    requires i < |c.delegates|
  {
    var d := c.delegates[i];
    c.(delegates := c.delegates[i := d.(cancels := d.cancels + cancels, cleanups := d.cleanups + cleanups)])
  }

  /** What the holder of reconcileMu does next. */
  function Advance(build: Builder, c: Core, pc: Pc): Held
    requires InRange(c, pc) && !pc.Unlocking?
  {
    match pc
    case Locked(r) =>
      if c.observed == r.key then Held(c, Unlocking(r)) else Held(c.(observed := r.key), Noted(r))
    case Noted(r) =>
      var e := if r.MarkUnavailable? then Unavailable(r.reason) else Initializing;
      Held(c.(published := Down1(e)), Swapped(r, c.published.cancel, r.MarkUnavailable?))
    case Swapped(r, retired, last) =>
      if retired.None? then Held(c, Settled(r, last))
      else Held(Bump(c, retired.value, 1, 0), Cleaning(r, retired.value, last))
    case Cleaning(r, i, last) => Held(Bump(c, i, 0, 1), Settled(r, last))
    case Disabled(r) =>
      var d := Delegate(r.key, if r.Reconcile? then r.bundle else None, false, 0, 0, false, false);
      Held(c.(delegates := c.delegates + [d]), Building(r, |c.delegates|))
    case Building(r, i) =>
      if build(i, c.delegates[i].bundle)
      then Held(c.(delegates := c.delegates[i := c.delegates[i].(built := true)]), Built(r, i))
      else Held(c, BuildRefused(r, i))
    case BuildRefused(r, i) => Held(Bump(c, i, 1, 0), Refused(r))
    case Refused(r) =>
      Held(c.(published := Down1(BuildFailed(r.key))), Swapped(r, c.published.cancel, true))
    case Built(r, i) =>
      Held(c.(published := Published(Some(i), Some(i), None)), Swapped(r, c.published.cancel, true))
  }

  // ---------------------------------------------------------------------------------------
  // Request handlers.

  datatype Cause = NotReady | ForeignIssuer | VerificationFailed

  /** What authentication reports: an infrastructure error, a token rejection, or acceptance. */
  datatype Answer = Infrastructure | Rejection(cause: Cause) | Acceptance(delegate: nat)

  /** A request takes its snapshot, checks the delegate's health, loads its verifier and verifies. */
  datatype Reader =
    | Snapped(delegate: nat)
    | Checked(delegate: nat, healthy: bool)
    | Loaded(delegate: nat, healthy: bool, verifier: bool)
    | Answered(answer: Answer)

  /** A token of another issuer, one that deserves to be accepted, or one that does not. */
  datatype Token = Foreign | Valid | Invalid

  function Snapshot(p: Published): Reader {
    if p.delegate.None? then Answered(Infrastructure) else Snapped(p.delegate.value)
  }

  /** `keys` says whether everything the verification needs from the provider, the signing keys
      first of all, is cached or can be fetched; the fetch uses the delegate's own context. */
  function Classify(d: nat, verifier: bool, healthy: bool, token: Token, keys: bool): Answer {
    if token == Foreign then Rejection(ForeignIssuer)
    else if !verifier then (if healthy then Rejection(NotReady) else Infrastructure)
    else if token == Valid && keys then Acceptance(d)
    else if healthy then Rejection(VerificationFailed) else Infrastructure
  }

  // ---------------------------------------------------------------------------------------
  // All goroutines together.

  datatype State = State(
    core: Core, holder: Option<(nat, Pc)>, waiting: map<nat, Request>, readers: map<nat, Reader>)

  datatype Event =
    | Call(thread: nat, request: Request)
    | Lock(thread: nat)
    | Continue
    | Unlock
    | StoreVerifier(delegate: nat)
    | ClearHealth(delegate: nat)
    | TakeSnapshot(reader: nat)
    | CheckHealth(reader: nat)
    | LoadVerifier(reader: nat)
    | Authenticate(reader: nat, token: Token, keys: bool)

  const INITIAL := State(CORE, None, map[], map[])

  /** `storeFirst`: the delegate's initializer stores its verifier before clearing its health error. */
  predicate Enabled(s: State, e: Event, storeFirst: bool) {
    match e
    case Call(t, _) => t !in s.waiting && (s.holder.Some? ==> s.holder.value.0 != t)
    case Lock(t) => t in s.waiting && s.holder.None?
    case Continue => s.holder.Some? && !s.holder.value.1.Unlocking? && InRange(s.core, s.holder.value.1)
    case Unlock => s.holder.Some? && s.holder.value.1.Unlocking?
    case StoreVerifier(d) => d < |s.core.delegates| && (storeFirst || s.core.delegates[d].healthy)
    case ClearHealth(d) => d < |s.core.delegates| && (storeFirst ==> s.core.delegates[d].verifier)
    case TakeSnapshot(q) => q !in s.readers
    case CheckHealth(q) =>
      q in s.readers && s.readers[q].Snapped? && s.readers[q].delegate < |s.core.delegates|
    case LoadVerifier(q) =>
      q in s.readers && s.readers[q].Checked? && s.readers[q].delegate < |s.core.delegates|
    case Authenticate(q, _, _) =>
      q in s.readers && s.readers[q].Loaded? && s.readers[q].delegate < |s.core.delegates|
  }

  function SetInit(c: Core, i: nat, verifier: bool, healthy: bool): Core
    requires i < |c.delegates|
  {
    c.(delegates := c.delegates[i := c.delegates[i].(verifier := verifier, healthy := healthy)])
  }

  function Next(build: Builder, s: State, e: Event, storeFirst: bool): State
    requires Enabled(s, e, storeFirst)
  {
    match e
    case Call(t, r) => s.(waiting := s.waiting[t := r])
    case Lock(t) => s.(holder := Some((t, Locked(s.waiting[t]))), waiting := s.waiting - {t})
    case Continue =>
      var h := Advance(build, s.core, s.holder.value.1);
      s.(core := h.core, holder := Some((s.holder.value.0, h.pc)))
    case Unlock =>
      s.(core := s.core.(log := s.core.log + [s.holder.value.1.request]), holder := None)
    case StoreVerifier(d) => s.(core := SetInit(s.core, d, true, s.core.delegates[d].healthy))
    case ClearHealth(d) => s.(core := SetInit(s.core, d, s.core.delegates[d].verifier, true))
    case TakeSnapshot(q) => s.(readers := s.readers[q := Snapshot(s.core.published)])
    case CheckHealth(q) =>
      var d := s.readers[q].delegate;
      s.(readers := s.readers[q := Checked(d, s.core.delegates[d].healthy)])
    case LoadVerifier(q) =>
      var pc := s.readers[q];
      s.(readers := s.readers[q := Loaded(pc.delegate, pc.healthy, s.core.delegates[pc.delegate].verifier)])
    case Authenticate(q, token, keys) =>
      var pc := s.readers[q];
      s.(readers := s.readers[q := Answered(Classify(pc.delegate, pc.verifier, pc.healthy, token, keys))])
  }

  ghost predicate IsRun(build: Builder, storeFirst: bool, run: seq<State>, events: seq<Event>) {
    && |run| == |events| + 1
    && run[0] == INITIAL
    && forall i :: 0 <= i < |events| ==>
         Enabled(run[i], events[i], storeFirst) && run[i + 1] == Next(build, run[i], events[i], storeFirst)
  }
}
