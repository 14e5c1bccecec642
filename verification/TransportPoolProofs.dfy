/** What every interleaving of calls to the transport pool keeps. */
module TransportPoolProofs {
  import opened Wrappers
  import opened PoolSections
  import opened TransportPoolModel

  // ---------------------------------------------------------------------------------------
  // Conservation of transports.

  ghost predicate Holds(s: State, t: nat, x: nat) {
    t in s.threads && s.threads[t].Finishing? && x in s.threads[t].todo
  }

  ghost predicate InCache(p: Pool<nat>, x: nat) {
    exists c :: c in p.cached && p.cached[c] == x
  }

  ghost predicate Cached(s: State, x: nat) {
    InCache(s.shared.pool, x)
  }

  /** Only clusters with the add-on have a transport, and it is a transport made for them. */
  ghost predicate OwnCluster(a: Atomic) {
    && a.pool.cached.Keys <= a.pool.allowed
    && (forall c :: c in a.pool.cached ==>
          a.pool.cached[c] < |a.created| && a.created[a.pool.cached[c]] == c)
  }

  /**
    Every transport ever created is in exactly one place: in the cache under its own cluster,
    in the hands of exactly one caller about to close it, or closed exactly once.
   */
  ghost predicate Conserved(s: State) {
    && |s.closes| == |s.shared.created|
    && OwnCluster(s.shared)
    && (forall t: nat, x: nat :: Holds(s, t, x) ==> x < |s.closes|)
    && (forall x :: 0 <= x < |s.closes| ==> s.closes[x] <= 1)
    && (forall x :: 0 <= x < |s.closes| && s.closes[x] == 0 ==> Cached(s, x) || exists t: nat :: Holds(s, t, x))
    && (forall x :: 0 <= x < |s.closes| && s.closes[x] == 1 ==> !Cached(s, x) && forall t: nat :: !Holds(s, t, x))
    && (forall t: nat, x: nat :: Holds(s, t, x) ==> !Cached(s, x))
    && (forall t: nat, u: nat, x: nat :: Holds(s, t, x) && Holds(s, u, x) ==> t == u)
  }

  lemma ConservedByDecide(s: State, t: nat, call: nat, op: Op, after: Atomic, todo: set<nat>, reply: Reply)
    requires Conserved(s)
    requires t in s.threads && !s.threads[t].Finishing?
    requires OwnCluster(after)
    requires after.created == s.shared.created
             || (|after.created| == |s.shared.created| + 1 && s.shared.created <= after.created)
    requires forall x: nat :: x < |after.created| ==>
      (Cached(s, x) || x == |s.shared.created| <==> x in todo || InCache(after.pool, x))
    requires forall x: nat :: x in todo ==> x < |s.closes| && !InCache(after.pool, x)
    ensures Conserved(Decide(s, t, call, op, after, todo, reply))
  {
    var n := Decide(s, t, call, op, after, todo, reply);
    forall u: nat, x: nat ensures Holds(n, u, x) <==> if u == t then x in todo else Holds(s, u, x) {}
    forall x | 0 <= x < |n.closes| && n.closes[x] == 0
      ensures Cached(n, x) || exists u: nat :: Holds(n, u, x)
    {
      if x < |s.closes| && !Cached(s, x) {
        var u: nat :| Holds(s, u, x);
        assert Holds(n, u, x);
      } else if x in todo {
        assert Holds(n, t, x);
      }
    }
  }

  /** Both critical sections keep every transport in exactly one place. */
  lemma ConservedBySections(s: State, t: nat)
    requires WellFormed(s) && Conserved(s)
    requires t in s.threads && !s.threads[t].Finishing?
    ensures Enabled(s, Enter(t)) ==> Conserved(Next(s, Enter(t)))
    ensures Enabled(s, Reenter(t)) ==> Conserved(Next(s, Reenter(t)))
  {
    var call := s.threads[t].call;
    var op := s.calls[call].op;
    var p := s.shared.pool;
    match op
    case Allow(c) =>
      ConservedByDecide(s, t, call, op, s.shared.(pool := Admit(p, c)), {}, Unit);
    case IsAllowed(c) =>
      ConservedByDecide(s, t, call, op, s.shared, {}, Member(c in p.allowed));
    case Remove(c) =>
      var evicted := if c in p.cached then {p.cached[c]} else {};
      EvictMovesOne(s, c);
      ConservedByDecide(s, t, call, op, s.shared.(pool := Evict(p, c)), evicted, Unit);
    case CloseAll =>
      ConservedByDecide(s, t, call, op, s.shared.(pool := Clear(p)), p.cached.Values, Unit);
    case GetOrCreate(c) =>
      ConservedByGetOrCreate(s, t, call, c);
  }

  lemma ConservedByGetOrCreate(s: State, t: nat, call: nat, c: string)
    requires Conserved(s) && t in s.threads && !s.threads[t].Finishing?
    ensures Conserved(EnterSection(s, t, call, GetOrCreate(c))) && Conserved(ReenterSection(s, t, call, c))
  {
    var op := GetOrCreate(c);
    match Look(s.shared.pool, c)
    case Denied => ConservedByDecide(s, t, call, op, s.shared, {}, Transport(None));
    case Hit(x) => ConservedByDecide(s, t, call, op, s.shared, {}, Transport(Some(x)));
    case Miss =>
      var x := |s.shared.created|;
      var after := Atomic(Insert(s.shared.pool, c, x), s.shared.created + [c]);
      InsertAddsOne(s, c, after);
      assert after.created[..x] == s.shared.created;
      ConservedByDecide(s, t, call, op, after, {}, Transport(Some(x)));
      ConservedByMiss(s, t, call);
  }

  lemma EvictMovesOne(s: State, c: string)
    requires Conserved(s)
    ensures var p := s.shared.pool;
      var q := Evict(p, c);
      forall x: nat :: x < |s.closes| ==>
        (Cached(s, x) <==> (c in p.cached && x == p.cached[c]) || InCache(q, x))
    ensures var p := s.shared.pool;
      c in p.cached ==> !InCache(Evict(p, c), p.cached[c])
  {
    var p := s.shared.pool;
    var q := Evict(p, c);
    forall x: nat | x < |s.closes| && Cached(s, x) && !(c in p.cached && x == p.cached[c])
      ensures InCache(q, x)
    {
      var d :| d in p.cached && p.cached[d] == x;
      assert d in q.cached;
    }
  }

  lemma InsertAddsOne(s: State, c: string, after: Atomic)
    requires Conserved(s) && c !in s.shared.pool.cached
    requires after == Atomic(Insert(s.shared.pool, c, |s.closes|), s.shared.created + [c])
    ensures forall x: nat :: x < |after.created| ==>
      (Cached(s, x) || x == |s.closes| <==> InCache(after.pool, x))
  {
    forall x: nat | x < |after.created| && (Cached(s, x) || x == |s.closes|)
      ensures InCache(after.pool, x)
    {
      var d :| if x == |s.closes| then d == c else d in s.shared.pool.cached && s.shared.pool.cached[d] == x;
      assert d in after.pool.cached && after.pool.cached[d] == x;
    }
  }

  lemma ConservedByMiss(s: State, t: nat, call: nat)
    requires Conserved(s) && t in s.threads && !s.threads[t].Finishing?
    ensures Conserved(s.(threads := s.threads[t := Retrying(call)]))
  {
    ConservedByMove(s, s.(threads := s.threads[t := Retrying(call)]));
  }

  /** A step that leaves the tables, the close counts and every caller's list alone. */
  lemma ConservedByMove(s: State, n: State)
    requires Conserved(s) && n.shared == s.shared && n.closes == s.closes
    requires forall t: nat, x: nat :: Holds(n, t, x) <==> Holds(s, t, x)
    ensures Conserved(n)
  {
    forall x: nat | x < |n.closes| && n.closes[x] == 0
      ensures Cached(n, x) || exists u: nat :: Holds(n, u, x)
    {
      if !Cached(s, x) {
        var u: nat :| Holds(s, u, x);
        assert Holds(n, u, x);
      }
    }
  }

  lemma ConservedByClose(s: State, t: nat, x: nat)
    requires WellFormed(s) && Conserved(s) && Enabled(s, Close(t, x))
    ensures Conserved(Next(s, Close(t, x)))
  {
    var n := Next(s, Close(t, x));
    assert Holds(s, t, x);
    forall u: nat, y: nat ensures Holds(n, u, y) <==> Holds(s, u, y) && y != x {}
    forall y: nat | y < |n.closes| && n.closes[y] == 0
      ensures Cached(n, y) || exists u: nat :: Holds(n, u, y)
    {
      if !Cached(s, y) {
        var u: nat :| Holds(s, u, y);
        assert Holds(n, u, y);
      }
    }
  }

  lemma ConservedByStep(s: State, e: Event)
    requires WellFormed(s) && Conserved(s) && Enabled(s, e)
    ensures Conserved(Next(s, e))
  {
    match e
    case Invoke(t, _) => ConservedByMove(s, Next(s, e));
    case Enter(t) => ConservedBySections(s, t);
    case Reenter(t) => ConservedBySections(s, t);
    case Close(t, x) => ConservedByClose(s, t, x);
    case Respond(t) => ConservedByMove(s, Next(s, e));
  }

  // ---------------------------------------------------------------------------------------
  // Linearizability.

  ghost predicate TookEffect(order: seq<Effect>, call: nat) {
    exists k :: 0 <= k < |order| && order[k].call == call
  }

  ghost predicate Decided(order: seq<Effect>, call: nat, reply: Reply) {
    exists k :: 0 <= k < |order| && order[k].call == call && order[k].reply == reply
  }

  ghost predicate EffectOfCall(calls: seq<Call>, e: Effect) {
    e.call < |calls| && e.op == calls[e.call].op
  }

  /** The effects are calls that were made, each at most once. */
  ghost predicate EffectsAreCalls(calls: seq<Call>, order: seq<Effect>) {
    && (forall k :: 0 <= k < |order| ==> EffectOfCall(calls, order[k]))
    && (forall i, k :: 0 <= i < k < |order| ==> order[i].call != order[k].call)
  }

  /** Taken one at a time, the effects give these replies and lead to the shared tables. */
  ghost predicate OrderExplains(order: seq<Effect>, shared: Atomic) {
    Legal(order) && After(order) == shared
  }

  /** A call that has returned took effect, with the reply it returned. */
  ghost predicate RepliesDecided(calls: seq<Call>, order: seq<Effect>) {
    forall c :: 0 <= c < |calls| && calls[c].response.Some? ==> Decided(order, c, calls[c].response.value)
  }

  ghost predicate ReturnedEarlier(calls: seq<Call>, b: nat, c: nat) {
    c < |calls| && b in calls[c].before
  }

  /** If one call returned before another was made, it also took effect before it. */
  ghost predicate RealTimeOrder(calls: seq<Call>, order: seq<Effect>) {
    && (forall c: nat, b: nat :: ReturnedEarlier(calls, b, c) ==> b < c && calls[b].response.Some?)
    && (forall i, k :: 0 <= i < |order| && 0 <= k < |order| && ReturnedEarlier(calls, order[i].call, order[k].call)
          ==> i < k)
  }

  ghost predicate Linearizable(s: State) {
    && EffectsAreCalls(s.calls, s.order)
    && OrderExplains(s.order, s.shared)
    && RepliesDecided(s.calls, s.order)
    && RealTimeOrder(s.calls, s.order)
  }

  ghost predicate PcAgrees(calls: seq<Call>, order: seq<Effect>, pc: Pc) {
    && pc.call < |calls|
    && calls[pc.call].response.None?
    && (pc.Finishing? ==> Decided(order, pc.call, pc.reply))
    && (!pc.Finishing? ==> !TookEffect(order, pc.call))
    && (pc.Retrying? ==> calls[pc.call].op.GetOrCreate?)
  }

  /** What a goroutine's position says about its call. */
  ghost predicate ThreadsAgree(s: State) {
    && (forall t :: t in s.threads ==> PcAgrees(s.calls, s.order, s.threads[t]))
    && (forall t, u :: t in s.threads && u in s.threads && t != u ==> s.threads[t].call != s.threads[u].call)
  }

  lemma AfterSnoc(order: seq<Effect>, e: Effect)
    requires Legal(order) && e.reply == Apply(After(order), e.op).reply
    ensures After(order + [e]) == Apply(After(order), e.op).after
    ensures Legal(order + [e])
  {
    var longer := order + [e];
    assert longer[..|order|] == order;
    forall k | 0 <= k < |longer| ensures LegalAt(longer, k) {
      if k < |order| {
        assert LegalAt(order, k);
        assert longer[..k] == order[..k];
      }
    }
  }

  lemma DecidedSnoc(order: seq<Effect>, e: Effect)
    ensures forall c: nat, r :: Decided(order, c, r) ==> Decided(order + [e], c, r)
    ensures Decided(order + [e], e.call, e.reply)
    ensures forall c: nat :: TookEffect(order + [e], c) ==> TookEffect(order, c) || c == e.call
  {
    var longer := order + [e];
    assert longer[|order|] == e;
    forall c: nat, r | Decided(order, c, r) ensures Decided(longer, c, r) {
      var k :| 0 <= k < |order| && order[k].call == c && order[k].reply == r;
      assert longer[k] == order[k];
    }
    forall c: nat | TookEffect(longer, c) && c != e.call ensures TookEffect(order, c) {
      var k :| 0 <= k < |longer| && longer[k].call == c;
      assert order[k] == longer[k];
    }
  }

  lemma EffectsSnoc(calls: seq<Call>, order: seq<Effect>, e: Effect)
    requires EffectsAreCalls(calls, order) && EffectOfCall(calls, e) && !TookEffect(order, e.call)
    ensures EffectsAreCalls(calls, order + [e])
  {
  }

  lemma RealTimeSnoc(calls: seq<Call>, order: seq<Effect>, e: Effect)
    requires RealTimeOrder(calls, order) && RepliesDecided(calls, order)
    requires e.call < |calls| && calls[e.call].response.None?
    ensures RealTimeOrder(calls, order + [e])
  {
    var longer := order + [e];
    forall i, k | 0 <= i < |longer| && 0 <= k < |longer| && ReturnedEarlier(calls, longer[i].call, longer[k].call)
      ensures i < k
    {
      assert longer[i].call != e.call;
    }
  }

  lemma RepliesSnoc(calls: seq<Call>, order: seq<Effect>, e: Effect)
    requires RepliesDecided(calls, order)
    ensures RepliesDecided(calls, order + [e])
  {
    DecidedSnoc(order, e);
  }

  /** The order of effects, with one more effect of a call that had none. */
  lemma LinearizableSnoc(s: State, n: State, e: Effect)
    requires Linearizable(s) && n.calls == s.calls && n.order == s.order + [e]
    requires EffectOfCall(s.calls, e) && !TookEffect(s.order, e.call) && s.calls[e.call].response.None?
    requires e.reply == Apply(s.shared, e.op).reply && n.shared == Apply(s.shared, e.op).after
    ensures Linearizable(n)
  {
    AfterSnoc(s.order, e);
    EffectsSnoc(s.calls, s.order, e);
    RepliesSnoc(s.calls, s.order, e);
    RealTimeSnoc(s.calls, s.order, e);
  }

  lemma PcAgreesSnoc(calls: seq<Call>, order: seq<Effect>, e: Effect, pc: Pc)
    requires PcAgrees(calls, order, pc) && pc.call != e.call
    ensures PcAgrees(calls, order + [e], pc)
  {
    DecidedSnoc(order, e);
  }

  /** The goroutine whose call took effect has its reply; the others are where they were. */
  lemma ThreadsAgreeSnoc(s: State, n: State, t: nat, e: Effect, todo: set<nat>)
    requires ThreadsAgree(s) && n.calls == s.calls && n.order == s.order + [e]
    requires t in s.threads && s.threads[t].call == e.call
    requires n.threads == s.threads[t := Finishing(e.call, todo, e.reply)]
    ensures ThreadsAgree(n)
  {
    DecidedSnoc(s.order, e);
    assert PcAgrees(s.calls, s.order, s.threads[t]);
    forall u | u in n.threads ensures PcAgrees(n.calls, n.order, n.threads[u]) {
      if u != t {
        PcAgreesSnoc(s.calls, s.order, e, s.threads[u]);
      }
    }
  }

  /** Making the decision inside a critical section is one atomic operation. */
  lemma LinearizableByDecide(s: State, t: nat, todo: set<nat>)
    requires Linearizable(s) && ThreadsAgree(s)
    requires t in s.threads && !s.threads[t].Finishing?
    ensures var call := s.threads[t].call;
      PcAgrees(s.calls, s.order, s.threads[t])
      && var op := s.calls[call].op;
      var a := Apply(s.shared, op);
      var n := Decide(s, t, call, op, a.after, todo, a.reply);
      Linearizable(n) && ThreadsAgree(n)
  {
    assert PcAgrees(s.calls, s.order, s.threads[t]);
    var call := s.threads[t].call;
    var op := s.calls[call].op;
    var a := Apply(s.shared, op);
    var n := Decide(s, t, call, op, a.after, todo, a.reply);
    LinearizableSnoc(s, n, Effect(call, op, a.reply));
    ThreadsAgreeSnoc(s, n, t, Effect(call, op, a.reply), todo);
  }

  /** The transports that an operation takes out of the cache. */
  function Evicted(p: Pool<nat>, op: Op): set<nat> {
    if op.Remove? && op.cluster in p.cached then {p.cached[op.cluster]}
    else if op.CloseAll? then p.cached.Values
    else {}
  }

  /** A section does the whole atomic operation, or sends getOrCreate on to its second section. */
  lemma SectionIsAtomic(s: State, t: nat, call: nat, op: Op)
    ensures EnterSection(s, t, call, op) ==
      if op.GetOrCreate? && Look(s.shared.pool, op.cluster).Miss?
      then s.(threads := s.threads[t := Retrying(call)])
      else Decide(s, t, call, op, Apply(s.shared, op).after, Evicted(s.shared.pool, op), Apply(s.shared, op).reply)
    ensures op.GetOrCreate? ==>
      ReenterSection(s, t, call, op.cluster) ==
      Decide(s, t, call, op, Apply(s.shared, op).after, {}, Apply(s.shared, op).reply)
  {
  }

  lemma LinearizableByMiss(s: State, t: nat)
    requires Linearizable(s) && ThreadsAgree(s)
    requires t in s.threads && !s.threads[t].Finishing? && s.threads[t].call < |s.calls|
    requires s.calls[s.threads[t].call].op.GetOrCreate?
    ensures var n := s.(threads := s.threads[t := Retrying(s.threads[t].call)]);
      Linearizable(n) && ThreadsAgree(n)
  {
    var n := s.(threads := s.threads[t := Retrying(s.threads[t].call)]);
    forall u | u in n.threads ensures PcAgrees(n.calls, n.order, n.threads[u]) {
      assert PcAgrees(s.calls, s.order, s.threads[u]);
    }
  }

  lemma LinearizableBySections(s: State, e: Event)
    requires WellFormed(s) && Linearizable(s) && ThreadsAgree(s) && Enabled(s, e)
    requires e.Enter? || e.Reenter?
    ensures Linearizable(Next(s, e)) && ThreadsAgree(Next(s, e))
  {
    var t := e.thread;
    var call := s.threads[t].call;
    var op := s.calls[call].op;
    SectionIsAtomic(s, t, call, op);
    LinearizableByDecide(s, t, if e.Enter? then Evicted(s.shared.pool, op) else {});
    if op.GetOrCreate? {
      LinearizableByMiss(s, t);
    }
  }

  lemma LinearizableByInvoke(s: State, t: nat, op: Op)
    requires WellFormed(s) && Linearizable(s) && ThreadsAgree(s) && Enabled(s, Invoke(t, op))
    ensures Linearizable(Next(s, Invoke(t, op))) && ThreadsAgree(Next(s, Invoke(t, op)))
  {
    var n := Next(s, Invoke(t, op));
    assert forall c :: 0 <= c < |s.calls| ==> n.calls[c] == s.calls[c];
    assert forall k :: 0 <= k < |s.order| ==> EffectOfCall(s.calls, s.order[k]);
    forall c: nat, b: nat | ReturnedEarlier(n.calls, b, c) ensures b < c && n.calls[b].response.Some? {
      assert c < |s.calls| ==> ReturnedEarlier(s.calls, b, c);
    }
    forall i, k | 0 <= i < |n.order| && 0 <= k < |n.order| && ReturnedEarlier(n.calls, n.order[i].call, n.order[k].call)
      ensures i < k
    {
      assert ReturnedEarlier(s.calls, s.order[i].call, s.order[k].call);
    }
    forall u | u in n.threads ensures PcAgrees(n.calls, n.order, n.threads[u]) {
      if u != t {
        assert PcAgrees(s.calls, s.order, s.threads[u]);
      }
    }
    forall u | u in s.threads ensures s.threads[u].call < |s.calls| {}
  }

  lemma LinearizableByRespond(s: State, t: nat)
    requires WellFormed(s) && Linearizable(s) && ThreadsAgree(s) && Enabled(s, Respond(t))
    ensures Linearizable(Next(s, Respond(t))) && ThreadsAgree(Next(s, Respond(t)))
  {
    var n := Next(s, Respond(t));
    assert PcAgrees(s.calls, s.order, s.threads[t]);
    forall c: nat, b: nat ensures ReturnedEarlier(n.calls, b, c) <==> ReturnedEarlier(s.calls, b, c) {}
    forall k | 0 <= k < |s.order| ensures EffectOfCall(n.calls, n.order[k]) {
      assert EffectOfCall(s.calls, s.order[k]);
    }
    forall u | u in n.threads ensures PcAgrees(n.calls, n.order, n.threads[u]) {
      assert PcAgrees(s.calls, s.order, s.threads[u]);
    }
  }

  ghost predicate Invariant(s: State) {
    WellFormed(s) && Conserved(s) && Linearizable(s) && ThreadsAgree(s)
  }

  lemma InvariantByStep(s: State, e: Event)
    requires Invariant(s) && Enabled(s, e)
    ensures Invariant(Next(s, e))
  {
    ConservedByStep(s, e);
    match e {
      case Invoke(t, op) => LinearizableByInvoke(s, t, op);
      case Enter(t) => LinearizableBySections(s, e);
      case Reenter(t) => LinearizableBySections(s, e);
      case Close(t, x) =>
      case Respond(t) => LinearizableByRespond(s, t);
    }
    WellFormedFromRest(Next(s, e));
  }

  lemma WellFormedFromRest(s: State)
    requires Conserved(s) && ThreadsAgree(s)
    ensures WellFormed(s)
  {
    forall t | t in s.threads ensures s.threads[t].call < |s.calls| {
      assert PcAgrees(s.calls, s.order, s.threads[t]);
    }
    forall t, x | t in s.threads && s.threads[t].Finishing? && x in s.threads[t].todo ensures x < |s.closes| {
      assert Holds(s, t, x);
    }
  }

  /** Every state of every run is linearizable and keeps each transport in exactly one place. */
  lemma {:induction false} EveryRun(run: seq<State>, events: seq<Event>, i: nat)
    requires IsRun(run, events) && i < |run|
    ensures Conserved(run[i]) && Linearizable(run[i])
    ensures Invariant(run[i])
  {
    if i > 0 {
      EveryRun(run, events, i - 1);
      InvariantByStep(run[i - 1], events[i - 1]);
    }
  }
}
