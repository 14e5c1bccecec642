/** The hub's request handler. */
module UserServer {
  import opened Wrappers
  import opened PoolSections
  import opened Routing
  import opened Allowlist
  import opened TransportPool
  import opened UserServerModel

  datatype Outcome = Refused(status: Status) | Forwarded(target: Target)

  /** The request has a target, its cluster is a member and, for a service, the list admits it. */
  ghost predicate PassesChecks(uri: string, members: set<string>, services: seq<ExposedService>) {
    && Route(uri).Ok?
    && Route(uri).value.cluster in members
    && (GetProxyType(uri) == Service ==> Admits(ToSet(services), Route(uri).value))
  }

  class Server {
    const pool: ClusterTransportPool
    const list: ServiceAllowlist

    constructor (pool: ClusterTransportPool, list: ServiceAllowlist)
      ensures this.pool == pool && this.list == list
    {
      this.pool, this.list := pool, list;
    }

    /**
      The admission sequence.  `hostParses` and `tunnelOpens` stand for the URL parser and the
      tunnel dialer.  A refused request is left as it came, and the first failing check
      decides the status; a forwarded one has passed all of them and points at its target.
     */
    method ServeHTTP(req: Request, upgrade: bool, hostParses: bool, tunnelOpens: bool) returns (out: Outcome)
      requires pool.Valid()
      modifies pool, req
      ensures pool.Valid()
      ensures out.Forwarded? ==>
        && Route(req.uri) == Ok(out.target)
        && out.target.cluster in old(pool.allowed)
        && (GetProxyType(req.uri) == Service ==> Admits(ToSet(list.services), out.target))
        && req.path == out.target.path && req.header == TargetHeaders(out.target, old(req.header))
      ensures out.Refused? ==> req.path == old(req.path) && req.header == old(req.header)
      ensures Route(req.uri).Err? ==> out == Refused(BadRequest)
      ensures Route(req.uri).Ok? && Route(req.uri).value.cluster !in old(pool.allowed) ==> out == Refused(NotFound)
      ensures Route(req.uri).Ok? && Route(req.uri).value.cluster in old(pool.allowed) ==>
        (out == Refused(Forbidden) <==>
         GetProxyType(req.uri) == Service && !Admits(ToSet(list.services), Route(req.uri).value))
      ensures PassesChecks(req.uri, old(pool.allowed), list.services) && !hostParses ==> out == Refused(BadRequest)
      ensures PassesChecks(req.uri, old(pool.allowed), list.services) && hostParses && upgrade ==>
        out == (if tunnelOpens then Forwarded(Route(req.uri).value) else Refused(BadRequest))
        && pool.View() == old(pool.View())
      ensures PassesChecks(req.uri, old(pool.allowed), list.services) && hostParses && !upgrade ==>
        var cluster := Route(req.uri).value.cluster;
        && out == (if cluster in pool.allowed then Forwarded(Route(req.uri).value) else Refused(NotFound))
        && (out.Forwarded? ==> Look(pool.View(), cluster).Hit?)
    {
      var proxyType := GetProxyType(req.uri);
      var routed := match proxyType
        case Service => GetTargetServiceConfig(req.uri)
        case KubeAPIServer => GetTargetServiceConfigForKubeAPIServer(req.uri);
      if routed.Err? {
        return Refused(BadRequest);
      }
      var t := routed.value;

      var member := pool.IsAllowed(t.cluster);
      if !member {
        return Refused(NotFound);
      }
      if proxyType == Service {
        var listed := list.IsAllowed(t);
        if !listed {
          return Refused(Forbidden);
        }
      }
      if !hostParses {
        return Refused(BadRequest);
      }

      if upgrade {
        if !tunnelOpens {
          return Refused(BadRequest);
        }
      } else {
        var transport := pool.GetOrCreate(t.cluster);
        if transport.None? {
          return Refused(NotFound);
        }
      }
      req.UpdateRequest(t);
      return Forwarded(t);
    }
  }
}
