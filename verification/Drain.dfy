/**
  Serving until shutdown and then draining, as a timed state machine.  Time passes only while
  the main goroutine is blocked: it reacts at once to a cancelled context, to a server result,
  to its timer and to its drain deadline.  Which of several ready events it takes is open.
 */
module Drain {
  import opened Wrappers

  /** Durations in nanoseconds. */
  datatype Config = Config(timeout: int, minDuration: int)

  datatype ConfigError = NegativeTimeout | NegativeMinimum | MinimumExceedsTimeout

  function Validate(c: Config): Option<ConfigError> {
    if c.timeout < 0 then Some(NegativeTimeout)
    else if c.minDuration < 0 then Some(NegativeMinimum)
    else if c.minDuration > c.timeout then Some(MinimumExceedsTimeout)
    else None
  }

  /** What a server goroutine sends when its server stops. */
  datatype Result = Result(health: bool, failed: bool)

  datatype Exit = Drained | DrainFailed | StoppedUnexpectedly | HealthServerFailed | PublicServerFailed

  function UnexpectedServerError(r: Result): Exit {
    if !r.failed then StoppedUnexpectedly
    else if r.health then HealthServerFailed
    else PublicServerFailed
  }

  datatype Goroutine = Running | Sending(failed: bool) | Sent(failed: bool)

  /** `start` (or `since`) is when readiness was turned off, `called` when Shutdown was called. */
  datatype Main =
    | Serving
    | Waiting(start: int)
    | Draining(start: int, called: int)
    | Returned(since: Option<int>, at: int, exit: Exit)

  datatype State = State(
    now: int, cancelled: Option<int>, ready: bool, idle: bool, main: Main,
    public: Goroutine, health: Goroutine, channel: seq<Result>)

  const CAPACITY := 2

  const INITIAL := State(0, None, true, false, Serving, Running, Running, [])

  datatype Event =
    | Tick(duration: int)
    | Cancel
    | RequestsFinish
    | ServerStops(isHealth: bool, failed: bool)
    | Send(isHealth: bool)
    | SelectCancelled
    | SelectResult
    | TimerFires
    | ShutdownReturns(exit: Exit)

  function Server(s: State, isHealth: bool): Goroutine {
    if isHealth then s.health else s.public
  }

  function SetServer(s: State, isHealth: bool, g: Goroutine): State {
    if isHealth then s.(health := g) else s.(public := g)
  }

  /** Nothing the main goroutine waits for has happened, and will not for this long. */
  predicate Blocked(c: Config, s: State, duration: int) {
    match s.main
    case Serving => s.cancelled.None? && s.channel == []
    case Waiting(start) => s.channel == [] && s.now + duration <= start + c.minDuration
    case Draining(start, _) => !s.idle && s.now + duration <= start + c.timeout
    case Returned(_, _, _) => true
  }

  predicate Enabled(c: Config, s: State, e: Event) {
    match e
    case Tick(d) => d > 0 && Blocked(c, s, d)
    case Cancel => s.cancelled.None?
    case RequestsFinish => true
    case ServerStops(h, _) => Server(s, h).Running?
    case Send(h) => Server(s, h).Sending? && |s.channel| < CAPACITY
    case SelectCancelled => s.main.Serving? && s.cancelled.Some?
    case SelectResult => (s.main.Serving? || s.main.Waiting?) && s.channel != []
    case TimerFires => s.main.Waiting? && s.now >= s.main.start + c.minDuration
    case ShutdownReturns(exit) =>
      && s.main.Draining?
      && (exit == Drained || exit == DrainFailed)
      && (exit == Drained ==> s.idle || s.now >= s.main.start + c.timeout)
  }

  function StartOf(m: Main): Option<int> {
    match m
    case Serving => None
    case Waiting(start) => Some(start)
    case Draining(start, _) => Some(start)
    case Returned(start, _, _) => start
  }

  function Next(c: Config, s: State, e: Event): State
    requires Enabled(c, s, e)
  {
    match e
    case Tick(d) => s.(now := s.now + d)
    case Cancel => s.(cancelled := Some(s.now))
    case RequestsFinish => s.(idle := true)
    case ServerStops(h, failed) => SetServer(s, h, Sending(failed))
    case Send(h) =>
      SetServer(s.(channel := s.channel + [Result(h, Server(s, h).failed)]), h, Sent(Server(s, h).failed))
    case SelectCancelled =>
      s.(ready := false,
         main := if c.minDuration > 0 then Waiting(s.now) else Draining(s.now, s.now))
    case SelectResult =>
      s.(channel := s.channel[1..],
         main := Returned(StartOf(s.main), s.now, UnexpectedServerError(s.channel[0])))
    case TimerFires => s.(main := Draining(s.main.start, s.now))
    case ShutdownReturns(exit) => s.(main := Returned(Some(s.main.start), s.now, exit))
  }

  ghost predicate IsRun(c: Config, run: seq<State>, events: seq<Event>) {
    && |run| == |events| + 1
    && run[0] == INITIAL
    && forall i :: 0 <= i < |events| ==> Enabled(c, run[i], events[i]) && run[i + 1] == Next(c, run[i], events[i])
  }

  // ---------------------------------------------------------------------------------------
  // Invariants, for any configuration.

  function Max(x: int, y: int): int {
    if x < y then y else x
  }

  /** The longest a drain can take, counted from turning readiness off. */
  function Longest(c: Config): int {
    Max(0, Max(c.minDuration, c.timeout))
  }

  predicate MainAgrees(c: Config, s: State) {
    match s.main
    case Serving => s.ready && (s.cancelled.Some? ==> s.cancelled == Some(s.now))
    case Waiting(start) => !s.ready && s.cancelled == Some(start) && start <= s.now <= start + c.minDuration
    case Draining(start, called) =>
      && !s.ready && s.cancelled == Some(start)
      && called == start + Max(0, c.minDuration) && called <= s.now <= start + Longest(c)
    case Returned(start, at, _) =>
      start.Some? ==> !s.ready && s.cancelled == start && start.value <= at <= start.value + Longest(c)
  }

  function Unsent(g: Goroutine): nat {
    if g.Sent? then 0 else 1
  }

  /** Results sent and results still to be sent fit the channel together. */
  predicate ChannelAgrees(s: State) {
    |s.channel| + Unsent(s.public) + Unsent(s.health) <= CAPACITY
  }

  /** Results come from servers that stopped in that way, and an exit names the server that caused
      it and how it stopped. */
  predicate ExitAgrees(c: Config, s: State) {
    && (forall i :: 0 <= i < |s.channel| ==> Server(s, s.channel[i].health) == Sent(s.channel[i].failed))
    && (s.main.Returned? ==>
          match s.main.exit {
            case HealthServerFailed => s.health == Sent(true)
            case PublicServerFailed => s.public == Sent(true)
            case StoppedUnexpectedly => s.health == Sent(false) || s.public == Sent(false)
            case Drained => s.main.since.Some? && (s.idle || s.main.at >= s.main.since.value + c.timeout)
            case DrainFailed => s.main.since.Some?
          })
  }

  lemma ExitAgreesByStep(c: Config, s: State, e: Event)
    requires ExitAgrees(c, s) && Enabled(c, s, e)
    ensures ExitAgrees(c, Next(c, s, e))
  {
  }

  /** The result that ends the serving decides the exit: a clean stop is unexpected, and a failure
      is named after its server. */
  lemma ResultDecidesExit(c: Config, s: State)
    requires Enabled(c, s, SelectResult)
    ensures var n, first := Next(c, s, SelectResult), s.channel[0];
      && n.main.Returned?
      && (first == Result(true, true) ==> n.main.exit == HealthServerFailed)
      && (first == Result(false, true) ==> n.main.exit == PublicServerFailed)
      && (!first.failed ==> n.main.exit == StoppedUnexpectedly)
  {
  }

  /** A failure is reported for a server that failed, an unexpected stop for one that stopped
      without failing, and a clean exit only after a shutdown that found no active request or ran
      into its deadline. */
  lemma {:induction false} ExitNamesItsCause(c: Config, run: seq<State>, events: seq<Event>, n: nat)
    requires IsRun(c, run, events) && n < |run|
    ensures ExitAgrees(c, run[n])
  {
    if n > 0 {
      ExitNamesItsCause(c, run, events, n - 1);
      ExitAgreesByStep(c, run[n - 1], events[n - 1]);
    }
  }

  lemma MainByStep(c: Config, s: State, e: Event)
    requires MainAgrees(c, s) && Enabled(c, s, e)
    ensures MainAgrees(c, Next(c, s, e))
  {
  }

  lemma ChannelByStep(c: Config, s: State, e: Event)
    requires ChannelAgrees(s) && Enabled(c, s, e)
    ensures ChannelAgrees(Next(c, s, e))
  {
  }

  lemma {:induction false} EveryRun(c: Config, run: seq<State>, events: seq<Event>, n: nat)
    requires IsRun(c, run, events) && n < |run|
    ensures MainAgrees(c, run[n]) && ChannelAgrees(run[n])
  {
    if n > 0 {
      EveryRun(c, run, events, n - 1);
      MainByStep(c, run[n - 1], events[n - 1]);
      ChannelByStep(c, run[n - 1], events[n - 1]);
    }
  }

  // ---------------------------------------------------------------------------------------
  // Main results.

  /**
    With a valid configuration, in every run: Shutdown is called with readiness off, exactly
    the minimum duration after it was turned off, and a planned shutdown returns within the
    drain timeout, counted from the moment the context was cancelled: it is never still under
    way later than that.
   */
  lemma PlannedShutdown(c: Config, run: seq<State>, events: seq<Event>, n: nat)
    requires Validate(c).None? && IsRun(c, run, events) && n < |run|
    ensures run[n].main.Draining? ==>
      !run[n].ready && run[n].main.called - run[n].main.start == c.minDuration
    ensures run[n].main.Waiting? || run[n].main.Draining? ==>
      run[n].cancelled.Some? && run[n].now - run[n].cancelled.value <= c.timeout
    ensures run[n].main.Returned? && run[n].main.since.Some? ==>
      && !run[n].ready && run[n].cancelled == run[n].main.since
      && run[n].main.at - run[n].cancelled.value <= c.timeout
  {
    EveryRun(c, run, events, n);
  }

  /** Shutdown is called while readiness is already off: the step that calls it comes after. */
  lemma ReadinessGoesFirst(c: Config, run: seq<State>, events: seq<Event>, n: nat)
    requires IsRun(c, run, events) && n < |events|
    requires run[n + 1].main.Draining? && !run[n].main.Draining?
    ensures events[n] == TimerFires ==> !run[n].ready
    ensures events[n] != TimerFires ==> events[n] == SelectCancelled && c.minDuration <= 0 && !run[n + 1].ready
  {
    EveryRun(c, run, events, n);
  }

  /** Once off, readiness stays off. */
  lemma {:induction false} ReadinessStaysOff(c: Config, run: seq<State>, events: seq<Event>, m: nat, n: nat)
    requires IsRun(c, run, events) && m <= n < |run| && !run[m].ready
    ensures !run[n].ready
  {
    if m < n {
      ReadinessStaysOff(c, run, events, m, n - 1);
    }
  }

  /** A server goroutine that wants to send its result can always do so. */
  lemma SendNeverBlocks(c: Config, run: seq<State>, events: seq<Event>, n: nat, isHealth: bool)
    requires IsRun(c, run, events) && n < |run| && Server(run[n], isHealth).Sending?
    ensures Enabled(c, run[n], Send(isHealth))
  {
    EveryRun(c, run, events, n);
  }

  ghost predicate ReturnsInTime(c: Config, s: State) {
    s.main.Returned? && s.main.since.Some? ==> s.main.at - s.main.since.value <= c.timeout
  }

  ghost predicate Reachable(c: Config, s: State) {
    exists run, events :: IsRun(c, run, events) && run[|events|] == s
  }

  lemma ReachStep(c: Config, s: State, e: Event, n: State)
    requires Reachable(c, s) && Enabled(c, s, e) && n == Next(c, s, e)
    ensures Reachable(c, n)
  {
    var run, events :| IsRun(c, run, events) && run[|events|] == s;
    assert IsRun(c, run + [n], events + [e]);
  }

  lemma ReachStart(c: Config)
    ensures Reachable(c, INITIAL)
  {
    assert IsRun(c, [INITIAL], []);
  }

  /** A drain with active requests that runs as long as the configuration lets it. */
  lemma LongestDrain(c: Config) returns (s: State)
    requires c.timeout < 0 || c.timeout < c.minDuration
    ensures Reachable(c, s) && s.main == Returned(Some(0), Max(0, c.minDuration), Drained)
  {
    ReachStart(c);
    var cancelled := INITIAL.(cancelled := Some(0));
    ReachStep(c, INITIAL, Cancel, cancelled);
    var off := cancelled.(ready := false);
    if c.minDuration > 0 {
      ReachStep(c, cancelled, SelectCancelled, off.(main := Waiting(0)));
      var late := off.(main := Waiting(0), now := c.minDuration);
      ReachStep(c, off.(main := Waiting(0)), Tick(c.minDuration), late);
      ReachStep(c, late, TimerFires, late.(main := Draining(0, c.minDuration)));
      s := late.(main := Returned(Some(0), c.minDuration, Drained));
      ReachStep(c, late.(main := Draining(0, c.minDuration)), ShutdownReturns(Drained), s);
    } else {
      ReachStep(c, cancelled, SelectCancelled, off.(main := Draining(0, 0)));
      s := off.(main := Returned(Some(0), 0, Drained));
      ReachStep(c, off.(main := Draining(0, 0)), ShutdownReturns(Drained), s);
    }
  }

  /**
    The validation is what makes the timeout a bound: every planned shutdown returns within
    the timeout if and only if the timeout is not negative and the minimum does not exceed it.
   */
  lemma TimeoutIsABoundIff(c: Config)
    ensures (forall s :: Reachable(c, s) ==> ReturnsInTime(c, s)) <==> c.timeout >= 0 && c.minDuration <= c.timeout
    ensures Validate(c).None? <==> c.minDuration >= 0 && c.timeout >= 0 && c.minDuration <= c.timeout
  {
    if c.timeout >= 0 && c.minDuration <= c.timeout {
      forall s | Reachable(c, s) ensures ReturnsInTime(c, s) {
        var run, events :| IsRun(c, run, events) && run[|events|] == s;
        EveryRun(c, run, events, |events|);
      }
    } else {
      var s := LongestDrain(c);
      assert !ReturnsInTime(c, s);
    }
  }
}
