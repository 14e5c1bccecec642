/**
  Any number of goroutines calling the transport pool at once.  Every critical section of
  the pool's lock is one step; everything a caller does outside the lock (being called,
  retrying after a cache miss, closing an evicted transport, returning) is a step of its own.
  The state also records the history: the calls in the order they were made, and the order
  in which their critical sections took effect.
 */
module TransportPoolModel {
  import opened Wrappers
  import opened PoolSections

  datatype Op =
    | Allow(cluster: string)
    | GetOrCreate(cluster: string)
    | IsAllowed(cluster: string)
    | Remove(cluster: string)
    | CloseAll

  datatype Reply = Unit | Transport(found: Option<nat>) | Member(member: bool)

  // ---------------------------------------------------------------------------------------
  // The atomic pool that the concurrent one has to look like.

  /** Transports are numbered in creation order; `created[n]` is the cluster of number `n`. */
  datatype Atomic = Atomic(pool: Pool<nat>, created: seq<string>)

  datatype Answer = Answer(after: Atomic, reply: Reply)

  const EMPTY := Atomic(Pool({}, map[]), [])

  function Apply(a: Atomic, op: Op): Answer {
    match op
    case Allow(c) => Answer(a.(pool := Admit(a.pool, c)), Unit)
    case IsAllowed(c) => Answer(a, Member(c in a.pool.allowed))
    case Remove(c) => Answer(a.(pool := Evict(a.pool, c)), Unit)
    case CloseAll => Answer(a.(pool := Clear(a.pool)), Unit)
    case GetOrCreate(c) =>
      if c !in a.pool.allowed then Answer(a, Transport(None))
      else if c in a.pool.cached then Answer(a, Transport(Some(a.pool.cached[c])))
      else
        Answer(Atomic(Insert(a.pool, c, |a.created|), a.created + [c]), Transport(Some(|a.created|)))
  }

  /** One call taking effect, with the reply it is going to give. */
  datatype Effect = Effect(call: nat, op: Op, reply: Reply)

  function After(order: seq<Effect>): Atomic {
    if order == [] then EMPTY
    else Apply(After(order[..|order| - 1]), order[|order| - 1].op).after
  }

  /** Every reply is the one the atomic pool gives when the effects happen one after another. */
  ghost predicate Legal(order: seq<Effect>) {
    forall k :: 0 <= k < |order| ==> LegalAt(order, k)
  }

  ghost predicate LegalAt(order: seq<Effect>, k: nat)
    requires k < |order|
  {
    order[k].reply == Apply(After(order[..k]), order[k].op).reply
  }

  // ---------------------------------------------------------------------------------------
  // The concurrent pool.

  /**
    Where a goroutine is inside a call.  `Retrying` is between the shared and the exclusive
    section of getOrCreate; `Finishing` is after the section that decided the reply, with the
    evicted transports it still has to close.
   */
  datatype Pc =
    | Called(call: nat)
    | Retrying(call: nat)
    | Finishing(call: nat, todo: set<nat>, reply: Reply)

  /** `before` holds the calls that had already returned when this one was made. */
  datatype Call = Call(op: Op, before: set<nat>, response: Option<Reply>)

  datatype State = State(
    shared: Atomic,
    closes: seq<nat>,
    threads: map<nat, Pc>,
    calls: seq<Call>,
    order: seq<Effect>)

  datatype Event =
    | Invoke(thread: nat, op: Op)
    | Enter(thread: nat)
    | Reenter(thread: nat)
    | Close(thread: nat, transport: nat)
    | Respond(thread: nat)

  const INITIAL := State(EMPTY, [], map[], [], [])

  predicate WellFormed(s: State) {
    && |s.closes| == |s.shared.created|
    && (forall t :: t in s.threads ==> s.threads[t].call < |s.calls|)
    && (forall t, x :: t in s.threads && s.threads[t].Finishing? && x in s.threads[t].todo
          ==> x < |s.closes|)
  }

  predicate Enabled(s: State, e: Event)
    requires WellFormed(s)
  {
    match e
    case Invoke(t, _) => t !in s.threads
    case Enter(t) => t in s.threads && s.threads[t].Called?
    case Reenter(t) => t in s.threads && s.threads[t].Retrying?
                       && s.calls[s.threads[t].call].op.GetOrCreate?
    case Close(t, x) => t in s.threads && s.threads[t].Finishing? && x in s.threads[t].todo
    case Respond(t) => t in s.threads && s.threads[t].Finishing? && s.threads[t].todo == {}
  }

  function Completed(s: State): set<nat> {
    set k | 0 <= k < |s.calls| && s.calls[k].response.Some?
  }

  /** The section that decides the reply: it moves the shared tables and the history together. */
  function Decide(s: State, t: nat, call: nat, op: Op, after: Atomic, todo: set<nat>, reply: Reply): State {
    s.(shared := after,
       closes := if |after.created| > |s.closes| then s.closes + [0] else s.closes,
       threads := s.threads[t := Finishing(call, todo, reply)],
       order := s.order + [Effect(call, op, reply)])
  }

  /** The first critical section of each method; for getOrCreate it is the shared one. */
  function EnterSection(s: State, t: nat, call: nat, op: Op): State {
    var p := s.shared.pool;
    match op
    case Allow(c) => Decide(s, t, call, op, s.shared.(pool := Admit(p, c)), {}, Unit)
    case IsAllowed(c) => Decide(s, t, call, op, s.shared, {}, Member(c in p.allowed))
    case Remove(c) =>
      var evicted := if c in p.cached then {p.cached[c]} else {};
      Decide(s, t, call, op, s.shared.(pool := Evict(p, c)), evicted, Unit)
    case CloseAll => Decide(s, t, call, op, s.shared.(pool := Clear(p)), p.cached.Values, Unit)
    case GetOrCreate(c) =>
      match Look(p, c) {
        case Denied => Decide(s, t, call, op, s.shared, {}, Transport(None))
        case Hit(x) => Decide(s, t, call, op, s.shared, {}, Transport(Some(x)))
        case Miss => s.(threads := s.threads[t := Retrying(call)])
      }
  }

  /** The exclusive section of getOrCreate, which looks again before creating. */
  function ReenterSection(s: State, t: nat, call: nat, c: string): State {
    var p := s.shared.pool;
    var op := GetOrCreate(c);
    match Look(p, c)
    case Denied => Decide(s, t, call, op, s.shared, {}, Transport(None))
    case Hit(x) => Decide(s, t, call, op, s.shared, {}, Transport(Some(x)))
    case Miss =>
      var number := |s.shared.created|;
      Decide(s, t, call, op,
             Atomic(Insert(p, c, number), s.shared.created + [c]), {}, Transport(Some(number)))
  }

  function Next(s: State, e: Event): State
    requires WellFormed(s) && Enabled(s, e)
  {
    match e
    case Invoke(t, op) =>
      s.(threads := s.threads[t := Called(|s.calls|)],
         calls := s.calls + [Call(op, Completed(s), None)])
    case Enter(t) =>
      var call := s.threads[t].call;
      EnterSection(s, t, call, s.calls[call].op)
    case Reenter(t) =>
      var call := s.threads[t].call;
      ReenterSection(s, t, call, s.calls[call].op.cluster)
    case Close(t, x) =>
      s.(threads := s.threads[t := s.threads[t].(todo := s.threads[t].todo - {x})],
         closes := s.closes[x := s.closes[x] + 1])
    case Respond(t) =>
      var pc := s.threads[t];
      s.(threads := s.threads - {t},
         calls := s.calls[pc.call := s.calls[pc.call].(response := Some(pc.reply))])
  }

  /** `run` is an execution from the empty pool: each state follows from the one before. */
  ghost predicate IsRun(run: seq<State>, events: seq<Event>) {
    && |run| == |events| + 1
    && run[0] == INITIAL
    && forall i :: 0 <= i < |events| ==>
         WellFormed(run[i]) && Enabled(run[i], events[i]) && run[i + 1] == Next(run[i], events[i])
  }
}
