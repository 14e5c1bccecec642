/** What callers of the transport pool can rely on, read off the order in which calls took effect. */
module TransportPoolHistory {
  import opened Wrappers
  import opened PoolSections
  import opened TransportPoolModel
  import opened TransportPoolProofs

  predicate Evicts(op: Op, c: string) {
    op == Remove(c) || op == CloseAll
  }

  predicate Returned(e: Effect, c: string, x: nat) {
    e.op == GetOrCreate(c) && e.reply == Transport(Some(x))
  }

  lemma AfterStep(order: seq<Effect>, k: nat)
    requires k < |order|
    ensures After(order[..k + 1]) == Apply(After(order[..k]), order[k].op).after
  {
    assert order[..k + 1][..k] == order[..k];
  }

  lemma {:induction false} OwnClusterAfter(order: seq<Effect>, k: nat)
    requires k <= |order|
    ensures OwnCluster(After(order[..k]))
  {
    if k > 0 {
      OwnClusterAfter(order, k - 1);
      AfterStep(order, k - 1);
    }
  }

  /** A cached transport stays until its cluster is evicted. */
  lemma {:induction false} StaysCached(order: seq<Effect>, i: nat, k: nat, c: string, x: nat)
    requires i <= k <= |order|
    requires Look(After(order[..i]).pool, c) == Hit(x)
    requires forall j :: i <= j < k ==> !Evicts(order[j].op, c)
    ensures Look(After(order[..k]).pool, c) == Hit(x)
  {
    if i < k {
      StaysCached(order, i, k - 1, c, x);
      AfterStep(order, k - 1);
    }
  }

  /** A transport that has left the cache never comes back. */
  lemma {:induction false} StaysGone(order: seq<Effect>, i: nat, k: nat, x: nat)
    requires i <= k <= |order|
    requires x < |After(order[..i]).created| && !InCache(After(order[..i]).pool, x)
    ensures x < |After(order[..k]).created| && !InCache(After(order[..k]).pool, x)
  {
    if i < k {
      StaysGone(order, i, k - 1, x);
      AfterStep(order, k - 1);
    }
  }

  lemma ReturnedIsCached(order: seq<Effect>, i: nat, c: string, x: nat)
    requires Legal(order) && i < |order| && Returned(order[i], c, x)
    ensures Look(After(order[..i + 1]).pool, c) == Hit(x)
    ensures x < |After(order[..i + 1]).created|
  {
    assert LegalAt(order, i);
    AfterStep(order, i);
    OwnClusterAfter(order, i + 1);
  }

  /**
    Two successful calls for one cluster return the same transport exactly when the cluster
    was not evicted between them: one transport per stay of a cluster, never one from before.
   */
  lemma OneTransportPerStay(order: seq<Effect>, i: nat, k: nat, c: string, x: nat, y: nat)
    requires Legal(order) && i < k < |order|
    requires Returned(order[i], c, x) && Returned(order[k], c, y)
    ensures x == y <==> forall j :: i < j < k ==> !Evicts(order[j].op, c)
  {
    ReturnedIsCached(order, i, c, x);
    assert LegalAt(order, k);
    AfterStep(order, k);
    if j :| i < j < k && Evicts(order[j].op, c) {
      EvictedIsGone(order, i, j, c, x);
      StaysGone(order, j + 1, k, x);
      assert Look(After(order[..k]).pool, c) != Hit(x);
    } else {
      StaysCached(order, i + 1, k, c, x);
    }
  }

  lemma EvictedIsGone(order: seq<Effect>, i: nat, j: nat, c: string, x: nat)
    requires Legal(order) && i < j < |order| && Returned(order[i], c, x) && Evicts(order[j].op, c)
    ensures x < |After(order[..j + 1]).created| && !InCache(After(order[..j + 1]).pool, x)
  {
    ReturnedIsCached(order, i, c, x);
    BelongsTo(order, i + 1, j, c, x);
    AfterStep(order, j);
  }

  lemma {:induction false} BelongsTo(order: seq<Effect>, i: nat, k: nat, c: string, x: nat)
    requires i <= k <= |order|
    requires Look(After(order[..i]).pool, c) == Hit(x)
    ensures x < |After(order[..k]).created|
    ensures forall d :: d in After(order[..k]).pool.cached && After(order[..k]).pool.cached[d] == x ==> d == c
  {
    OwnClusterAfter(order, i);
    OwnClusterAfter(order, k);
    CreatedGrows(order, i, k);
  }

  lemma {:induction false} CreatedGrows(order: seq<Effect>, i: nat, k: nat)
    requires i <= k <= |order|
    ensures After(order[..i]).created <= After(order[..k]).created
  {
    if i < k {
      CreatedGrows(order, i, k - 1);
      AfterStep(order, k - 1);
    }
  }

  /** An allow of `c` took effect before position `k`, and no eviction of it since. */
  ghost predicate AllowedBefore(order: seq<Effect>, k: nat, c: string)
    requires k <= |order|
  {
    exists i :: 0 <= i < k && order[i].op == Allow(c) && forall j :: i < j < k ==> !Evicts(order[j].op, c)
  }

  lemma AllowedStep(order: seq<Effect>, k: nat, c: string)
    requires 0 < k <= |order|
    ensures AllowedBefore(order, k, c) <==>
      order[k - 1].op == Allow(c) || (AllowedBefore(order, k - 1, c) && !Evicts(order[k - 1].op, c))
  {
  }

  lemma {:induction false} AllowedIff(order: seq<Effect>, k: nat, c: string)
    requires k <= |order|
    ensures c in After(order[..k]).pool.allowed <==> AllowedBefore(order, k, c)
  {
    if k > 0 {
      AllowedIff(order, k - 1, c);
      AfterStep(order, k - 1);
      AllowedStep(order, k, c);
    }
  }

  /** A call for a cluster succeeds exactly when the cluster was allowed and not evicted since. */
  lemma SucceedsIff(order: seq<Effect>, k: nat, c: string)
    requires Legal(order) && k < |order|
    ensures order[k].op == GetOrCreate(c) ==>
      ((exists x: nat :: Returned(order[k], c, x)) <==> AllowedBefore(order, k, c))
    ensures order[k].op == IsAllowed(c) ==> order[k].reply == Member(AllowedBefore(order, k, c))
  {
    assert LegalAt(order, k);
    AllowedIff(order, k, c);
    if order[k].op == GetOrCreate(c) && order[k].reply != Transport(None) {
      assert Returned(order[k], c, order[k].reply.found.value);
    }
  }

  /** So after an eviction no call for the cluster succeeds until the cluster is allowed again. */
  lemma EvictionFences(order: seq<Effect>, i: nat, k: nat, c: string, x: nat)
    requires Legal(order) && i < k < |order|
    requires Evicts(order[i].op, c) && Returned(order[k], c, x)
    ensures exists j :: i < j < k && order[j].op == Allow(c)
  {
    SucceedsIff(order, k, c);
    var j :| 0 <= j < k && order[j].op == Allow(c) && forall m :: j < m < k ==> !Evicts(order[m].op, c);
    assert j != i && !(j < i);
  }

  lemma BeforeStays(s: State, e: Event, b: nat)
    requires WellFormed(s) && Enabled(s, e) && b < |s.calls|
    ensures b < |Next(s, e).calls| && Next(s, e).calls[b].before == s.calls[b].before
  {
  }

  /** What it means that one call returned before another: when the second was made, in step i,
      the first already had its response. */
  lemma {:induction false} ReturnedEarlierIff(run: seq<State>, events: seq<Event>, i: nat, n: nat, a: nat, b: nat)
    requires IsRun(run, events) && i < n < |run|
    requires |run[i].calls| == b && |run[i + 1].calls| == b + 1
    ensures ReturnedEarlier(run[n].calls, a, b) <==> a < b && run[i].calls[a].response.Some?
  {
    if n > i + 1 {
      ReturnedEarlierIff(run, events, i, n - 1, a, b);
      MadeStays(run, events, i, n - 1, b);
      BeforeStays(run[n - 1], events[n - 1], b);
    }
  }

  lemma {:induction false} MadeStays(run: seq<State>, events: seq<Event>, i: nat, n: nat, b: nat)
    requires IsRun(run, events) && i < n < |run| && |run[i + 1].calls| == b + 1
    ensures b < |run[n].calls|
  {
    if n > i + 1 {
      MadeStays(run, events, i, n - 1, b);
    }
  }

  /**
    The same for real calls, in any interleaving: if a remove or closeAll had returned before
    a getOrCreate was made and that getOrCreate succeeded, then an allow of the cluster took
    effect after the eviction and before it, and that allow had not returned before the
    evicting call was made.
   */
  lemma RemoveFencesLaterCalls(run: seq<State>, events: seq<Event>, n: nat, a: nat, b: nat, c: string, x: nat)
    requires IsRun(run, events) && n < |run|
    requires b < |run[n].calls| && ReturnedEarlier(run[n].calls, a, b)
    requires a < |run[n].calls| && Evicts(run[n].calls[a].op, c)
    requires run[n].calls[b].op == GetOrCreate(c)
    requires run[n].calls[b].response == Some(Transport(Some(x)))
    ensures exists d: nat :: d < |run[n].calls| && run[n].calls[d].op == Allow(c)
                             && TookEffect(run[n].order, d)
                             && !ReturnedEarlier(run[n].calls, d, a) && !ReturnedEarlier(run[n].calls, b, d)
  {
    EveryRun(run, events, n);
    var s := run[n];
    assert s.calls[a].response.Some?;
    assert Decided(s.order, a, s.calls[a].response.value);
    assert Decided(s.order, b, s.calls[b].response.value);
    var i :| 0 <= i < |s.order| && s.order[i].call == a;
    var k :| 0 <= k < |s.order| && s.order[k].call == b && s.order[k].reply == Transport(Some(x));
    assert EffectOfCall(s.calls, s.order[i]) && EffectOfCall(s.calls, s.order[k]);
    EvictionFences(s.order, i, k, c, x);
    var j :| i < j < k && s.order[j].op == Allow(c);
    assert EffectOfCall(s.calls, s.order[j]);
    assert TookEffect(s.order, s.order[j].call);
  }

  // ---------------------------------------------------------------------------------------
  // How long a returned transport stays open.

  /** Step m is the section in which a getOrCreate of goroutine t finds or makes transport x. */
  ghost predicate Obtains(run: seq<State>, events: seq<Event>, m: nat, t: nat, x: nat)
    requires |run| == |events| + 1
  {
    && m < |events| && (events[m] == Enter(t) || events[m] == Reenter(t))
    && t in run[m + 1].threads && run[m + 1].threads[t].Finishing?
    && run[m + 1].threads[t].reply == Transport(Some(x))
  }

  lemma ObtainedIsCached(s: State, e: Event, t: nat, x: nat)
    requires WellFormed(s) && Enabled(s, e) && (e == Enter(t) || e == Reenter(t))
    requires Next(s, e).threads[t].Finishing? && Next(s, e).threads[t].reply == Transport(Some(x))
    ensures Cached(Next(s, e), x)
  {
    var c := s.calls[s.threads[t].call].op.cluster;
    assert c in Next(s, e).shared.pool.cached && Next(s, e).shared.pool.cached[c] == x;
  }

  predicate Closes(e: Event, x: nat) {
    e.Close? && e.transport == x
  }

  ghost predicate ClosedBetween(events: seq<Event>, m: nat, n: nat, x: nat)
    requires n <= |events|
  {
    exists k :: m < k < n && Closes(events[k], x)
  }

  lemma CloseStep(s: State, e: Event, x: nat)
    requires WellFormed(s) && Enabled(s, e) && x < |s.closes|
    ensures x < |Next(s, e).closes| && Next(s, e).closes[x] == s.closes[x] + if Closes(e, x) then 1 else 0
  {
  }

  lemma ClosedSnoc(events: seq<Event>, m: nat, n: nat, x: nat)
    requires m < n < |events|
    ensures ClosedBetween(events, m, n + 1, x) <==> ClosedBetween(events, m, n, x) || Closes(events[n], x)
  {
  }

  lemma RunWellFormed(run: seq<State>, events: seq<Event>, n: nat)
    requires IsRun(run, events) && n < |run|
    ensures WellFormed(run[n]) && OwnCluster(run[n].shared)
  {
    EveryRun(run, events, n);
  }

  lemma CachedIsOpen(run: seq<State>, events: seq<Event>, n: nat, x: nat)
    requires IsRun(run, events) && n < |run| && Cached(run[n], x)
    ensures x < |run[n].closes| && run[n].closes[x] == 0 && forall u: nat :: !Holds(run[n], u, x)
  {
    EveryRun(run, events, n);
  }

  lemma ClosedAtMostOnce(run: seq<State>, events: seq<Event>, n: nat, x: nat)
    requires IsRun(run, events) && n < |run| && x < |run[n].closes|
    ensures run[n].closes[x] <= 1
  {
    EveryRun(run, events, n);
  }

  /**
    A caller holds an open transport exactly until the step in which a remover closes it: the
    transport a call obtained at step m is closed at step n if and only if its one close lies
    between them.
   */
  lemma {:induction false} ObtainedIsClosedIff(
    run: seq<State>, events: seq<Event>, m: nat, n: nat, t: nat, x: nat)
    requires IsRun(run, events) && m < n < |run| && Obtains(run, events, m, t, x)
    ensures x < |run[n].closes|
    ensures run[n].closes[x] == 1 <==> ClosedBetween(events, m, n, x)
    ensures run[n].closes[x] == 0 <==> !ClosedBetween(events, m, n, x)
  {
    if n == m + 1 {
      ObtainedIsCached(run[m], events[m], t, x);
      CachedIsOpen(run, events, n, x);
    } else {
      ObtainedIsClosedIff(run, events, m, n - 1, t, x);
      CloseStep(run[n - 1], events[n - 1], x);
      ClosedSnoc(events, m, n - 1, x);
      ClosedAtMostOnce(run, events, n, x);
    }
  }

  /** Goroutine u takes the section in which its call evicts cluster c. */
  predicate EvictsAt(s: State, e: Event, u: nat, c: string) {
    && e == Enter(u) && u in s.threads && s.threads[u].call < |s.calls|
    && Evicts(s.calls[s.threads[u].call].op, c)
  }

  lemma HeldByEviction(s: State, e: Event, u: nat, x: nat, c: string)
    requires WellFormed(s) && OwnCluster(s.shared) && Enabled(s, e)
    requires x < |s.shared.created| && s.shared.created[x] == c
    requires Holds(Next(s, e), u, x)
    ensures Holds(s, u, x) || EvictsAt(s, e, u, c)
  {
  }

  lemma CreatedStays(s: State, e: Event, x: nat)
    requires WellFormed(s) && Enabled(s, e) && x < |s.shared.created|
    ensures x < |Next(s, e).shared.created| && Next(s, e).shared.created[x] == s.shared.created[x]
  {
  }

  /** A transport belongs to one cluster for good. */
  lemma {:induction false} ClusterOfTransport(run: seq<State>, events: seq<Event>, m: nat, k: nat, x: nat)
    requires IsRun(run, events) && m <= k < |run| && x < |run[m].shared.created|
    ensures x < |run[k].shared.created| && run[k].shared.created[x] == run[m].shared.created[x]
  {
    if k > m {
      ClusterOfTransport(run, events, m, k - 1, x);
      CreatedStays(run[k - 1], events[k - 1], x);
    }
  }

  lemma HeldStep(run: seq<State>, events: seq<Event>, m: nat, k: nat, u: nat, x: nat)
    requires IsRun(run, events) && m <= k < |events|
    requires x < |run[m].shared.created| && Holds(run[k + 1], u, x)
    ensures Holds(run[k], u, x) || EvictsAt(run[k], events[k], u, run[m].shared.created[x])
  {
    ClusterOfTransport(run, events, m, k, x);
    RunWellFormed(run, events, k);
    HeldByEviction(run[k], events[k], u, x, run[m].shared.created[x]);
  }

  /** A goroutine that holds a transport it did not hold before took it in some step between. */
  lemma {:induction false} TakenBetween(run: seq<State>, m: nat, k: nat, u: nat, x: nat) returns (j: nat)
    requires m <= k < |run| && !Holds(run[m], u, x) && Holds(run[k], u, x)
    ensures m <= j < k && !Holds(run[j], u, x) && Holds(run[j + 1], u, x)
  {
    if Holds(run[k - 1], u, x) {
      j := TakenBetween(run, m, k - 1, u, x);
    } else {
      j := k - 1;
    }
  }

  /** So a transport that a caller obtained is closed only by a goroutine that evicted the
      transport's cluster after the caller obtained it. */
  lemma ClosedAfterEviction(run: seq<State>, events: seq<Event>, m: nat, k: nat, t: nat, u: nat, x: nat)
    requires IsRun(run, events) && m < k < |events| && Obtains(run, events, m, t, x) && events[k] == Close(u, x)
    ensures x < |run[k].shared.created|
    ensures exists j :: m < j < k && EvictsAt(run[j], events[j], u, run[k].shared.created[x])
  {
    ObtainedIsCached(run[m], events[m], t, x);
    CachedIsOpen(run, events, m + 1, x);
    RunWellFormed(run, events, m + 1);
    ClusterOfTransport(run, events, m + 1, k, x);
    assert Holds(run[k], u, x);
    var j := TakenBetween(run, m + 1, k, u, x);
    HeldStep(run, events, m + 1, j, u, x);
  }
}
