/**
  Requests going through the hub's checks while cluster membership and the allowlist change.
  Each check reads the tables under its own lock, so each is one step, and other goroutines
  may act between any two of them.
 */
module UserServerModel {
  import opened Wrappers
  import opened Routing
  import opened Allowlist
  import opened PoolSections

  datatype Status = BadRequest | NotFound | Forbidden

  /** The way out of a request: a tunnel of its own, or a transport of the pool, which dials when
      the request is sent. */
  datatype Via = Tunnel | Pooled(transport: nat)

  /** A request that has been given its target. */
  datatype Job = Job(uri: string, upgrade: bool, target: Target)

  datatype Pc =
    | Arrived(uri: string, upgrade: bool)
    | Routed(job: Job)
    | Admitted(job: Job)
    | Permitted(job: Job)
    | Ready(job: Job)
    | Retrying(job: Job)
    | Forwarding(job: Job, via: Via)
    | Sent(job: Job, via: Via)
    | Answered(status: Status)

  datatype State = State(pool: Pool<nat>, created: seq<string>, entries: set<ExposedService>, requests: map<nat, Pc>)

  datatype Event =
    | Arrive(request: nat, uri: string, upgrade: bool)
    | Parse(request: nat)
    | CheckMember(request: nat)
    | CheckList(request: nat)
    | ParseHost(request: nat, ok: bool)
    | OpenTunnel(request: nat, ok: bool)
    | Lookup(request: nat)
    | LookupAgain(request: nat)
    | Send(request: nat)
    | AllowCluster(cluster: string)
    | RemoveCluster(cluster: string)
    | CloseAll
    | SetList(entries: set<ExposedService>)

  predicate At(s: State, q: nat) {
    q in s.requests
  }

  /** The lists that can come into force are those whose entries are complete. */
  ghost predicate Enabled(s: State, e: Event) {
    match e
    case Arrive(q, _, _) => !At(s, q)
    case Parse(q) => At(s, q) && s.requests[q].Arrived?
    case CheckMember(q) => At(s, q) && s.requests[q].Routed?
    case CheckList(q) => At(s, q) && s.requests[q].Admitted?
    case ParseHost(q, _) => At(s, q) && s.requests[q].Permitted?
    case OpenTunnel(q, _) => At(s, q) && s.requests[q].Ready? && s.requests[q].job.upgrade
    case Lookup(q) => At(s, q) && s.requests[q].Ready? && !s.requests[q].job.upgrade
    case LookupAgain(q) => At(s, q) && s.requests[q].Retrying?
    case Send(q) => At(s, q) && s.requests[q].Forwarding?
    case SetList(entries) => AllComplete(entries)
    case _ => true
  }

  function Move(s: State, q: nat, pc: Pc): State {
    s.(requests := s.requests[q := pc])
  }

  function ParseStep(pc: Pc): Pc
    requires pc.Arrived?
  {
    match Route(pc.uri)
    case Err(_) => Answered(BadRequest)
    case Ok(t) => Routed(Job(pc.uri, pc.upgrade, t))
  }

  ghost predicate ListAllows(entries: set<ExposedService>, job: Job) {
    GetProxyType(job.uri) == Service ==> Admits(entries, job.target)
  }

  ghost function Next(s: State, e: Event): State
    requires Enabled(s, e)
  {
    match e
    case Arrive(q, uri, upgrade) => Move(s, q, Arrived(uri, upgrade))
    case Parse(q) => Move(s, q, ParseStep(s.requests[q]))
    case CheckMember(q) =>
      var job := s.requests[q].job;
      Move(s, q, if job.target.cluster in s.pool.allowed then Admitted(job) else Answered(NotFound))
    case CheckList(q) =>
      var job := s.requests[q].job;
      Move(s, q, if ListAllows(s.entries, job) then Permitted(job) else Answered(Forbidden))
    case ParseHost(q, ok) => Move(s, q, if ok then Ready(s.requests[q].job) else Answered(BadRequest))
    case OpenTunnel(q, ok) =>
      Move(s, q, if ok then Forwarding(s.requests[q].job, Tunnel) else Answered(BadRequest))
    case Lookup(q) =>
      var job := s.requests[q].job;
      Move(s, q, match Look(s.pool, job.target.cluster)
                 case Denied => Answered(NotFound)
                 case Hit(x) => Forwarding(job, Pooled(x))
                 case Miss => Retrying(job))
    case LookupAgain(q) =>
      var job := s.requests[q].job;
      var c := job.target.cluster;
      (match Look(s.pool, c)
       case Denied => Move(s, q, Answered(NotFound))
       case Hit(x) => Move(s, q, Forwarding(job, Pooled(x)))
       case Miss =>
         Move(s.(pool := Insert(s.pool, c, |s.created|), created := s.created + [c]), q,
              Forwarding(job, Pooled(|s.created|))))
    case Send(q) => Move(s, q, Sent(s.requests[q].job, s.requests[q].via))
    case AllowCluster(c) => s.(pool := Admit(s.pool, c))
    case RemoveCluster(c) => s.(pool := Evict(s.pool, c))
    case CloseAll => s.(pool := Clear(s.pool))
    case SetList(entries) => s.(entries := entries)
  }

  const INITIAL := State(Pool({}, map[]), [], {}, map[])

  ghost predicate IsRun(run: seq<State>, events: seq<Event>) {
    && |run| == |events| + 1
    && run[0] == INITIAL
    && forall i :: 0 <= i < |events| ==> Enabled(run[i], events[i]) && run[i + 1] == Next(run[i], events[i])
  }

  // ---------------------------------------------------------------------------------------
  // What a request in progress has been through.

  /** The membership check of this request succeeded at an earlier step. */
  ghost predicate WasMember(run: seq<State>, events: seq<Event>, n: nat, q: nat, cluster: string)
    requires n <= |events| < |run|
  {
    exists i :: 0 <= i < n && events[i] == CheckMember(q) && cluster in run[i].pool.allowed
  }

  /** The allowlist check of this request succeeded at an earlier step. */
  ghost predicate WasListed(run: seq<State>, events: seq<Event>, n: nat, q: nat, job: Job)
    requires n <= |events| < |run|
  {
    exists i :: 0 <= i < n && events[i] == CheckList(q) && ListAllows(run[i].entries, job)
  }

  predicate HasJob(pc: Pc) {
    !pc.Arrived? && !pc.Answered?
  }

  ghost predicate Justified(run: seq<State>, events: seq<Event>, n: nat, q: nat, pc: Pc)
    requires n <= |events| < |run|
  {
    && (HasJob(pc) ==> Route(pc.job.uri) == Ok(pc.job.target))
    && (HasJob(pc) && !pc.Routed? ==> WasMember(run, events, n, q, pc.job.target.cluster))
    && (HasJob(pc) && !pc.Routed? && !pc.Admitted? ==> WasListed(run, events, n, q, pc.job))
  }

  lemma JustifiedLater(run: seq<State>, events: seq<Event>, n: nat, q: nat, pc: Pc)
    requires IsRun(run, events) && n < |events| && Justified(run, events, n, q, pc)
    ensures Justified(run, events, n + 1, q, pc)
  {
  }

  /** How one step can move a request on. */
  ghost predicate Follows(s: State, e: Event, q: nat, pc: Pc, after: Pc) {
    || after == pc
    || after.Answered?
    || (pc.Arrived? && after == ParseStep(pc))
    || (&& HasJob(pc) && HasJob(after) && after.job == pc.job && !after.Routed?
        && (pc.Routed? ==> e == CheckMember(q) && after.Admitted? && pc.job.target.cluster in s.pool.allowed)
        && (pc.Admitted? ==> e == CheckList(q) && ListAllows(s.entries, pc.job))
        && (after.Admitted? ==> pc.Routed?))
  }

  lemma StepFollows(s: State, e: Event, q: nat)
    requires Enabled(s, e) && q in s.requests
    ensures q in Next(s, e).requests && Follows(s, e, q, s.requests[q], Next(s, e).requests[q])
  {
  }

  lemma JustifiedByFollow(run: seq<State>, events: seq<Event>, n: nat, q: nat, pc: Pc, after: Pc)
    requires IsRun(run, events) && n < |events| && Justified(run, events, n, q, pc)
    requires Follows(run[n], events[n], q, pc, after)
    ensures Justified(run, events, n + 1, q, after)
  {
    JustifiedLater(run, events, n, q, pc);
  }

  lemma {:induction false} EveryRun(run: seq<State>, events: seq<Event>, n: nat, q: nat)
    requires IsRun(run, events) && n < |run| && q in run[n].requests
    ensures Justified(run, events, n, q, run[n].requests[q])
  {
    if n > 0 {
      var s, e := run[n - 1], events[n - 1];
      if q in s.requests {
        EveryRun(run, events, n - 1, q);
        StepFollows(s, e, q);
        JustifiedByFollow(run, events, n - 1, q, s.requests[q], run[n].requests[q]);
      }
    }
  }

  // ---------------------------------------------------------------------------------------
  // Main results.

  /** A step that opens a tunnel, creates a transport, or sends a request, for which a pooled
      transport may have to open a tunnel. */
  ghost predicate Reaches(run: seq<State>, events: seq<Event>, n: nat, q: nat)
    requires IsRun(run, events) && n < |events|
  {
    || events[n] == OpenTunnel(q, true)
    || events[n] == Send(q)
    || (events[n] == LookupAgain(q) && |run[n + 1].created| > |run[n].created|)
  }

  /**
    However membership and the allowlist change meanwhile, a request that opens a tunnel,
    creates a transport or is sent has passed the membership check for its cluster and, if it is a
    service request, matched an entry of the allowlist; a transport is moreover created for
    that cluster alone and only while the cluster is a member.
   */
  lemma ChecksComeFirst(run: seq<State>, events: seq<Event>, n: nat, q: nat)
    requires IsRun(run, events) && n < |events| && Reaches(run, events, n, q)
    ensures q in run[n].requests && HasJob(run[n].requests[q])
    ensures var job := run[n].requests[q].job;
      && Route(job.uri) == Ok(job.target)
      && WasMember(run, events, n, q, job.target.cluster)
      && (exists i :: 0 <= i < n && events[i] == CheckList(q)
            && (GetProxyType(job.uri) == Service ==> Admits(run[i].entries, job.target)))
      && (events[n].LookupAgain? ==>
            job.target.cluster in run[n].pool.allowed && run[n + 1].created == run[n].created + [job.target.cluster])
  {
    EveryRun(run, events, n, q);
    var job := run[n].requests[q].job;
    assert WasListed(run, events, n, q, job);
    var i :| 0 <= i < n && events[i] == CheckList(q) && ListAllows(run[i].entries, job);
  }

  /** A request forwarded over a pooled transport went through the same checks. */
  lemma ForwardingIsChecked(run: seq<State>, events: seq<Event>, n: nat, q: nat)
    requires IsRun(run, events) && n < |run| && q in run[n].requests && run[n].requests[q].Forwarding?
    ensures var job := run[n].requests[q].job;
      && Route(job.uri) == Ok(job.target)
      && WasMember(run, events, n, q, job.target.cluster) && WasListed(run, events, n, q, job)
  {
    EveryRun(run, events, n, q);
  }

  ghost predicate Reachable(s: State) {
    exists run, events :: IsRun(run, events) && run[|events|] == s
  }

  lemma ReachStep(s: State, e: Event, n: State)
    requires Reachable(s) && Enabled(s, e) && n == Next(s, e)
    ensures Reachable(n)
  {
    var run, events :| IsRun(run, events) && run[|events|] == s;
    assert IsRun(run + [n], events + [e]);
  }

  /** The status a refused request gets says why: 404 exactly where its cluster is no member, 403
      exactly where the list does not let it pass, and 400 in the other steps that can refuse. */
  lemma StatusSaysWhy(s: State, e: Event, q: nat, status: Status)
    requires Enabled(s, e) && q in s.requests && !s.requests[q].Answered?
    requires Next(s, e).requests[q] == Answered(status)
    ensures status == NotFound <==>
      (e == CheckMember(q) || e == Lookup(q) || e == LookupAgain(q))
      && s.requests[q].job.target.cluster !in s.pool.allowed
    ensures status == Forbidden <==> e == CheckList(q) && !ListAllows(s.entries, s.requests[q].job)
    ensures status == BadRequest <==>
      e == Parse(q) || e == ParseHost(q, false) || e == OpenTunnel(q, false)
    ensures e == Parse(q) ==> Route(s.requests[q].uri).Err?
  {
  }

  // ---------------------------------------------------------------------------------------
  // Handing out a way out.

  /** The step gives request `q` its way out. */
  ghost predicate HandsOut(s: State, e: Event, q: nat, job: Job, via: Via) {
    && Enabled(s, e) && q in s.requests && !s.requests[q].Forwarding?
    && q in Next(s, e).requests && Next(s, e).requests[q] == Forwarding(job, via)
  }

  /** A pooled transport, cached or new, is only handed out while the cluster is a member; and
      it is the transport cached for that cluster afterwards. */
  lemma PooledWhileMember(s: State, e: Event, q: nat, job: Job, x: nat)
    requires HandsOut(s, e, q, job, Pooled(x))
    ensures job.target.cluster in s.pool.allowed
    ensures Look(Next(s, e).pool, job.target.cluster) == Hit(x)
  {
  }

  /** Only upgrade requests are in front of a tunnel, only others in front of the pool. */
  ghost predicate WayMatches(pc: Pc) {
    && (pc.Forwarding? && pc.via.Tunnel? ==> pc.job.upgrade)
    && (pc.Forwarding? && pc.via.Pooled? ==> !pc.job.upgrade)
    && (pc.Retrying? ==> !pc.job.upgrade)
  }

  ghost predicate EveryWayMatches(s: State) {
    && AllComplete(s.entries)
    && forall q :: q in s.requests ==> WayMatches(s.requests[q])
  }

  lemma WayByStep(s: State, e: Event)
    requires EveryWayMatches(s) && Enabled(s, e)
    ensures EveryWayMatches(Next(s, e))
  {
  }

  lemma {:induction false} EveryWay(run: seq<State>, events: seq<Event>, n: nat)
    requires IsRun(run, events) && n < |run|
    ensures EveryWayMatches(run[n])
  {
    if n > 0 {
      EveryWay(run, events, n - 1);
      WayByStep(run[n - 1], events[n - 1]);
    }
  }

  // ---------------------------------------------------------------------------------------
  // Sending: when the cluster of a request that is sent is no member any more.

  /** The sections in which a request of this kind is checked for membership for the last time. */
  predicate Section(e: Event, q: nat, upgrade: bool) {
    if upgrade then e == CheckMember(q) else e == Lookup(q) || e == LookupAgain(q)
  }

  /** Step m is the last such section of the request before step n. */
  ghost predicate LastSection(events: seq<Event>, m: nat, n: nat, q: nat, upgrade: bool) {
    && m < n <= |events| && Section(events[m], q, upgrade)
    && forall k :: m < k < n ==> !Section(events[k], q, upgrade)
  }

  predicate PastSection(pc: Pc) {
    HasJob(pc) && !pc.Routed? && (pc.job.upgrade || pc.Forwarding? || pc.Sent?)
  }

  lemma SectionStep(s: State, e: Event, q: nat)
    requires Enabled(s, e) && q in Next(s, e).requests && PastSection(Next(s, e).requests[q])
    ensures var job := Next(s, e).requests[q].job;
      if q in s.requests && PastSection(s.requests[q]) && s.requests[q].job == job
      then !Section(e, q, job.upgrade)
      else Section(e, q, job.upgrade) && job.target.cluster in s.pool.allowed
  {
  }

  /** There is a last section, and the cluster was a member in it. */
  lemma {:induction false} MemberInLastSection(run: seq<State>, events: seq<Event>, n: nat, q: nat) returns (m: nat)
    requires IsRun(run, events) && n < |run| && q in run[n].requests && PastSection(run[n].requests[q])
    ensures LastSection(events, m, n, q, run[n].requests[q].job.upgrade)
    ensures run[n].requests[q].job.target.cluster in run[m].pool.allowed
  {
    SectionStep(run[n - 1], events[n - 1], q);
    if Section(events[n - 1], q, run[n].requests[q].job.upgrade) {
      m := n - 1;
    } else {
      m := MemberInLastSection(run, events, n - 1, q);
    }
  }

  predicate Evicts(e: Event, c: string) {
    e == RemoveCluster(c) || e == CloseAll
  }

  /** The cluster was evicted after step m, and not allowed again before step n. */
  ghost predicate EvictedSince(events: seq<Event>, m: nat, n: nat, c: string)
    requires n <= |events|
  {
    exists k :: m < k < n && Evicts(events[k], c) && forall j :: k < j < n ==> events[j] != AllowCluster(c)
  }

  lemma EvictedSnoc(events: seq<Event>, m: nat, n: nat, c: string)
    requires m < n < |events|
    ensures EvictedSince(events, m, n + 1, c) <==>
      Evicts(events[n], c) || (EvictedSince(events, m, n, c) && events[n] != AllowCluster(c))
  {
  }

  lemma {:induction false} MemberUntilEvicted(run: seq<State>, events: seq<Event>, m: nat, n: nat, c: string)
    requires IsRun(run, events) && m < n < |run| && c in run[m + 1].pool.allowed
    ensures c !in run[n].pool.allowed <==> EvictedSince(events, m, n, c)
  {
    if n > m + 1 {
      MemberUntilEvicted(run, events, m, n - 1, c);
      EvictedSnoc(events, m, n - 1, c);
    }
  }

  lemma SectionKeepsMembers(s: State, e: Event, q: nat, upgrade: bool)
    requires Enabled(s, e) && Section(e, q, upgrade)
    ensures Next(s, e).pool.allowed == s.pool.allowed
  {
  }

  /**
    In every run, when a request is sent its cluster is no member exactly if the cluster was
    evicted after the last section in which the request was checked for membership, and not
    allowed again since.  That section is the first check for an upgrade request, and the one
    that handed out the transport for any other.
   */
  lemma SentWithoutMembershipIff(run: seq<State>, events: seq<Event>, n: nat, q: nat)
    requires IsRun(run, events) && n < |events| && events[n] == Send(q)
    ensures var job := run[n].requests[q].job;
      && (exists m: nat :: LastSection(events, m, n, q, job.upgrade))
      && (forall m: nat :: LastSection(events, m, n, q, job.upgrade) ==>
            (job.target.cluster !in run[n].pool.allowed <==> EvictedSince(events, m, n, job.target.cluster)))
  {
    var job := run[n].requests[q].job;
    var m := MemberInLastSection(run, events, n, q);
    SectionKeepsMembers(run[m], events[m], q, job.upgrade);
    MemberUntilEvicted(run, events, m, n, job.target.cluster);
    forall k: nat | LastSection(events, k, n, q, job.upgrade) ensures k == m {
      assert !(m < k < n) && !(k < m < n);
    }
  }

  // ---------------------------------------------------------------------------------------
  // Sending: when the list that let a request pass does not let it pass any more.

  predicate PastList(pc: Pc) {
    HasJob(pc) && !pc.Routed? && !pc.Admitted?
  }

  ghost predicate LastListCheck(events: seq<Event>, m: nat, n: nat, q: nat) {
    && m < n <= |events| && events[m] == CheckList(q)
    && forall k :: m < k < n ==> events[k] != CheckList(q)
  }

  lemma ListStep(s: State, e: Event, q: nat)
    requires Enabled(s, e) && q in Next(s, e).requests && PastList(Next(s, e).requests[q])
    ensures var job := Next(s, e).requests[q].job;
      if q in s.requests && PastList(s.requests[q]) && s.requests[q].job == job
      then e != CheckList(q)
      else e == CheckList(q) && ListAllows(s.entries, job)
  {
  }

  lemma {:induction false} ListedInLastCheck(run: seq<State>, events: seq<Event>, n: nat, q: nat) returns (m: nat)
    requires IsRun(run, events) && n < |run| && q in run[n].requests && PastList(run[n].requests[q])
    ensures LastListCheck(events, m, n, q) && ListAllows(run[m].entries, run[n].requests[q].job)
  {
    ListStep(run[n - 1], events[n - 1], q);
    if events[n - 1] == CheckList(q) {
      m := n - 1;
    } else {
      m := ListedInLastCheck(run, events, n - 1, q);
    }
  }

  ghost predicate Refuses(e: Event, job: Job) {
    e.SetList? && !ListAllows(e.entries, job)
  }

  /** A list that does not let the request pass came into force after step m, and none that does
      has since. */
  ghost predicate DelistedSince(events: seq<Event>, m: nat, n: nat, job: Job)
    requires n <= |events|
  {
    exists k :: m < k < n && Refuses(events[k], job)
                && forall j :: k < j < n && events[j].SetList? ==> Refuses(events[j], job)
  }

  lemma DelistedSnoc(events: seq<Event>, m: nat, n: nat, job: Job)
    requires m < n < |events|
    ensures DelistedSince(events, m, n + 1, job) <==>
      if events[n].SetList? then Refuses(events[n], job) else DelistedSince(events, m, n, job)
  {
  }

  lemma ListByStep(s: State, e: Event)
    requires Enabled(s, e)
    ensures Next(s, e).entries == if e.SetList? then e.entries else s.entries
  {
  }

  lemma {:induction false} ListedUntilReplaced(run: seq<State>, events: seq<Event>, m: nat, n: nat, job: Job)
    requires IsRun(run, events) && m < n < |run| && ListAllows(run[m + 1].entries, job)
    ensures !ListAllows(run[n].entries, job) <==> DelistedSince(events, m, n, job)
  {
    if n > m + 1 {
      ListedUntilReplaced(run, events, m, n - 1, job);
      DelistedSnoc(events, m, n - 1, job);
      ListByStep(run[n - 1], events[n - 1]);
    }
  }

  /** In every run, when a request is sent the list in force does not let it pass exactly if such
      a list came into force after the request's only check, and no better one since. */
  lemma SentUnlistedIff(run: seq<State>, events: seq<Event>, n: nat, q: nat)
    requires IsRun(run, events) && n < |events| && events[n] == Send(q)
    ensures var job := run[n].requests[q].job;
      && (exists m: nat :: LastListCheck(events, m, n, q))
      && (forall m: nat :: LastListCheck(events, m, n, q) ==>
            (!ListAllows(run[n].entries, job) <==> DelistedSince(events, m, n, job)))
  {
    var job := run[n].requests[q].job;
    var m := ListedInLastCheck(run, events, n, q);
    ListedUntilReplaced(run, events, m, n, job);
    forall k: nat | LastListCheck(events, k, n, q) ensures k == m {
      assert !(m < k < n) && !(k < m < n);
    }
  }

  // ---------------------------------------------------------------------------------------
  // Which requests this can happen to.

  /** A request can be given its way out in a reachable state without membership. */
  ghost predicate HandedOutWithoutMembership(job: Job) {
    exists s, e, q, via :: Reachable(s) && HandsOut(s, e, q, job, via) && job.target.cluster !in s.pool.allowed
  }

  /** A request can be sent in a reachable state without membership. */
  ghost predicate LeavesWithoutMembership(job: Job) {
    exists s, q, via :: Reachable(s) && q in s.requests && s.requests[q] == Forwarding(job, via)
                        && job.target.cluster !in s.pool.allowed
  }

  /** The only request moves on. */
  lemma ReachMove(pool: Pool<nat>, entries: set<ExposedService>, pc: Pc, e: Event, after: Pc)
    requires var s := State(pool, [], entries, map[0 := pc]);
      Reachable(s) && Enabled(s, e) && Next(s, e) == Move(s, 0, after)
    ensures Reachable(State(pool, [], entries, map[0 := after]))
  {
    var s := State(pool, [], entries, map[0 := pc]);
    assert map[0 := pc][0 := after] == map[0 := after];
    ReachStep(s, e, Move(s, 0, after));
  }

  lemma ReachRouted(entries: set<ExposedService>, job: Job)
    requires Route(job.uri) == Ok(job.target) && AllComplete(entries)
    ensures Reachable(State(Pool({job.target.cluster}, map[]), [], entries, map[0 := Routed(job)]))
  {
    var c := job.target.cluster;
    var member := Pool({c}, map[]);
    assert IsRun([INITIAL], []);
    assert Reachable(INITIAL);
    ReachStep(INITIAL, SetList(entries), INITIAL.(entries := entries));
    assert INITIAL.pool.allowed + {c} == {c};
    var ready := State(member, [], entries, map[]);
    ReachStep(INITIAL.(entries := entries), AllowCluster(c), ready);
    ReachStep(ready, Arrive(0, job.uri, job.upgrade), ready.(requests := map[0 := Arrived(job.uri, job.upgrade)]));
    ReachMove(member, entries, Arrived(job.uri, job.upgrade), Parse(0), Routed(job));
  }

  /** With the list letting it through, a request gets as far as its way out. */
  lemma ReachReady(entries: set<ExposedService>, job: Job)
    requires Route(job.uri) == Ok(job.target) && AllComplete(entries) && ListAllows(entries, job)
    ensures Reachable(State(Pool({job.target.cluster}, map[]), [], entries, map[0 := Ready(job)]))
  {
    var member := Pool({job.target.cluster}, map[]);
    ReachRouted(entries, job);
    ReachMove(member, entries, Routed(job), CheckMember(0), Admitted(job));
    ReachMove(member, entries, Admitted(job), CheckList(0), Permitted(job));
    ReachMove(member, entries, Permitted(job), ParseHost(0, true), Ready(job));
  }

  /** A list that lets a target through, if it is a service with a namespace. */
  lemma ListFor(job: Job) returns (entries: set<ExposedService>)
    requires Route(job.uri) == Ok(job.target)
    requires GetProxyType(job.uri) == Service ==> job.target.namespace != ""
    ensures AllComplete(entries) && ListAllows(entries, job)
  {
    if GetProxyType(job.uri) == KubeAPIServer {
      return {};
    }
    RoutedHasService(job.uri);
    var entry := ExposedService(job.target.namespace, job.target.service, "", "");
    assert Matches(entry, job.target);
    return {entry};
  }

  /** An upgrade request is not rechecked: whatever its cluster and target, its tunnel can be
      opened after the cluster has left, provided that the allowlist can let it through at all. */
  lemma TunnelAfterRemoval(job: Job)
    requires Route(job.uri) == Ok(job.target) && job.upgrade
    requires GetProxyType(job.uri) == Service ==> job.target.namespace != ""
    ensures HandedOutWithoutMembership(job)
  {
    var c := job.target.cluster;
    var entries := ListFor(job);
    ReachReady(entries, job);
    var member: Pool<nat> := Pool({c}, map[]);
    assert Evict(member, c) == Pool({}, map[]);
    var gone := State(Pool({}, map[]), [], entries, map[0 := Ready(job)]);
    ReachStep(State(member, [], entries, map[0 := Ready(job)]), RemoveCluster(c), gone);
    assert HandsOut(gone, OpenTunnel(0, true), 0, job, Tunnel);
  }

  /** The way out that a request is given when nothing is cached for its cluster. */
  function FirstWay(job: Job): Via {
    if job.upgrade then Tunnel else Pooled(0)
  }

  function FirstPool(job: Job): Pool<nat> {
    var member: Pool<nat> := Pool({job.target.cluster}, map[]);
    if job.upgrade then member else Insert(member, job.target.cluster, 0)
  }

  function FirstCreated(job: Job): seq<string> {
    if job.upgrade then [] else [job.target.cluster]
  }

  lemma ReachForwarding(entries: set<ExposedService>, job: Job)
    requires Route(job.uri) == Ok(job.target) && AllComplete(entries) && ListAllows(entries, job)
    ensures Reachable(State(FirstPool(job), FirstCreated(job), entries, map[0 := Forwarding(job, FirstWay(job))]))
  {
    ReachReady(entries, job);
    var member := Pool({job.target.cluster}, map[]);
    if job.upgrade {
      ReachMove(member, entries, Ready(job), OpenTunnel(0, true), Forwarding(job, Tunnel));
    } else {
      ReachMove(member, entries, Ready(job), Lookup(0), Retrying(job));
      var out := State(FirstPool(job), FirstCreated(job), entries, map[0 := Forwarding(job, Pooled(0))]);
      assert map[0 := Retrying(job)][0 := Forwarding(job, Pooled(0))] == map[0 := Forwarding(job, Pooled(0))];
      ReachStep(State(member, [], entries, map[0 := Retrying(job)]), LookupAgain(0), out);
    }
  }

  /** Every request that some list lets through, upgrade or not, can be sent when neither its
      cluster is a member nor, for a service, any entry of the list matches it any more. */
  lemma SentAfterBothLeft(job: Job) returns (s: State)
    requires Route(job.uri) == Ok(job.target)
    requires GetProxyType(job.uri) == Service ==> job.target.namespace != ""
    ensures Reachable(s) && 0 in s.requests && s.requests[0] == Forwarding(job, FirstWay(job))
    ensures Enabled(s, Send(0)) && job.target.cluster !in s.pool.allowed && !Admits(s.entries, job.target)
  {
    var entries := ListFor(job);
    ReachForwarding(entries, job);
    var out := State(FirstPool(job), FirstCreated(job), entries, map[0 := Forwarding(job, FirstWay(job))]);
    var gone := out.(pool := Evict(out.pool, job.target.cluster));
    ReachStep(out, RemoveCluster(job.target.cluster), gone);
    s := gone.(entries := {});
    ReachStep(gone, SetList({}), s);
  }

  lemma RoutedHasService(uri: string)
    requires Route(uri).Ok?
    ensures Route(uri).value.service != ""
  {
  }

  lemma OutsideMembershipIsUpgrade(s: State, e: Event, q: nat, job: Job, via: Via)
    requires HandsOut(s, e, q, job, via) && job.target.cluster !in s.pool.allowed
    ensures job.upgrade && s.requests[q] == Ready(job)
  {
    if via.Pooled? {
      PooledWhileMember(s, e, q, job, via.transport);
      assert false;
    }
  }

  /** Which requests can be handed a way out without their cluster being a member: exactly the
      upgrade requests that can get as far, which a service request without a namespace cannot. */
  lemma HandedOutWithoutMembershipIff(job: Job)
    requires Route(job.uri) == Ok(job.target)
    ensures HandedOutWithoutMembership(job) <==>
      job.upgrade && (GetProxyType(job.uri) == Service ==> job.target.namespace != "")
  {
    if HandedOutWithoutMembership(job) {
      var s, e, q, via :| Reachable(s) && HandsOut(s, e, q, job, via) && job.target.cluster !in s.pool.allowed;
      var run, events :| IsRun(run, events) && run[|events|] == s;
      OutsideMembershipIsUpgrade(s, e, q, job, via);
      WasListedSomewhere(run, events, q);
    } else if job.upgrade && (GetProxyType(job.uri) == Service ==> job.target.namespace != "") {
      TunnelAfterRemoval(job);
    }
  }

  /** Which requests can be sent without their cluster being a member: every one that can get as
      far, upgrade or not. */
  lemma LeavesWithoutMembershipIff(job: Job)
    requires Route(job.uri) == Ok(job.target)
    ensures LeavesWithoutMembership(job) <==>
      (GetProxyType(job.uri) == Service ==> job.target.namespace != "")
  {
    if LeavesWithoutMembership(job) {
      var s, q, via :| Reachable(s) && q in s.requests && s.requests[q] == Forwarding(job, via);
      var run, events :| IsRun(run, events) && run[|events|] == s;
      WasListedSomewhere(run, events, q);
    } else if GetProxyType(job.uri) == Service ==> job.target.namespace != "" {
      var s := SentAfterBothLeft(job);
    }
  }

  lemma WasListedSomewhere(run: seq<State>, events: seq<Event>, q: nat)
    requires IsRun(run, events) && q in run[|events|].requests && PastList(run[|events|].requests[q])
    ensures var job := run[|events|].requests[q].job;
      GetProxyType(job.uri) == Service ==> job.target.namespace != ""
  {
    var i := ListedInLastCheck(run, events, |events|, q);
    EveryWay(run, events, i);
  }
}
