/** The transport pool object itself, with its transports on the heap. */
module TransportPool {
  import opened PoolSections
  import opened Wrappers

  class Transport {
    const cluster: string
    /** How often the idle connections were closed. */
    var closes: nat

    constructor (cluster: string)
      ensures this.cluster == cluster && closes == 0
    {
      this.cluster := cluster;
      closes := 0;
    }

    method CloseIdleConnections()
      modifies this
      ensures closes == old(closes) + 1
    {
      closes := closes + 1;
    }
  }

  class ClusterTransportPool {
    var allowed: set<string>
    var transports: map<string, Transport>

    ghost predicate Valid()
      reads this
    {
      && transports.Keys <= allowed
      && forall c :: c in transports ==> transports[c].cluster == c
    }

    ghost function View(): Pool<Transport>
      reads this
    {
      Pool(allowed, transports)
    }

    constructor ()
      ensures Valid() && View() == Pool({}, map[])
    {
      allowed, transports := {}, map[];
    }

    method Allow(cluster: string)
      requires Valid()
      modifies this
      ensures Valid() && View() == Admit(old(View()), cluster)
    {
      allowed := allowed + {cluster};
    }

    method IsAllowed(cluster: string) returns (ok: bool)
      ensures ok <==> !Look(View(), cluster).Denied?
    {
      ok := cluster in allowed;
    }

    /** Other goroutines run: all that is known afterwards is what every method keeps. */
    method Yield()
      requires Valid()
      modifies this
      ensures Valid()
    {
    }

    /** The part of getOrCreate under the shared lock. */
    method Lookup(cluster: string) returns (found: Lookup<Transport>)
      ensures found == Look(View(), cluster)
    {
      if cluster !in allowed {
        found := Denied;
      } else if cluster in transports {
        found := Hit(transports[cluster]);
      } else {
        found := Miss;
      }
    }

    /** The part of getOrCreate under the exclusive lock, which checks both tables again. */
    method LookupOrInsert(cluster: string) returns (r: Option<Transport>)
      requires Valid()
      modifies this
      ensures Valid()
      ensures match old(Look(View(), cluster)) {
                case Denied => r == None && View() == old(View())
                case Hit(t) => r == Some(t) && View() == old(View())
                case Miss => r.Some? && fresh(r.value) && r.value.cluster == cluster && r.value.closes == 0
                             && View() == Insert(old(View()), cluster, r.value)
              }
    {
      if cluster !in allowed {
        return None;
      }
      if cluster in transports {
        return Some(transports[cluster]);
      }
      var created := new Transport(cluster);
      transports := transports[cluster := created];
      return Some(created);
    }

    /**
      The whole call, with other goroutines between its two sections: it ends with the section
      that decides, and in the tables as that section leaves them the cluster is a member with
      this transport, or is no member.  A call that hits at once changes nothing.
     */
    method GetOrCreate(cluster: string) returns (r: Option<Transport>)
      requires Valid()
      modifies this
      ensures Valid()
      ensures r.Some? ==> r.value.cluster == cluster && Look(View(), cluster) == Hit(r.value)
      ensures r.None? ==> Look(View(), cluster).Denied?
      ensures !old(Look(View(), cluster)).Miss? ==> View() == old(View())
    {
      var found := Lookup(cluster);
      if found.Denied? {
        return None;
      }
      if found.Hit? {
        return Some(found.transport);
      }
      Yield();
      r := LookupOrInsert(cluster);
    }

    /** The cluster leaves both tables and its transport, and no other, is closed once. */
    method Remove(cluster: string)
      requires Valid()
      modifies this, transports.Values
      ensures Valid() && View() == Evict(old(View()), cluster)
      ensures forall c :: c in old(transports) ==>
        old(transports)[c].closes == old(transports[c].closes) + (if c == cluster then 1 else 0)
    {
      allowed := allowed - {cluster};
      if cluster in transports {
        var transport := transports[cluster];
        transports := transports - {cluster};
        transport.CloseIdleConnections();
      }
    }

    /** Both tables are emptied and every transport they held is closed exactly once. */
    method CloseAll()
      requires Valid()
      modifies this, transports.Values
      ensures Valid() && View() == Clear(old(View()))
      ensures forall c :: c in old(transports) ==> old(transports)[c].closes == old(transports[c].closes) + 1
    {
      allowed := {};
      var moved := transports;
      transports := map[];
      var todo := moved;
      while todo.Keys != {}
        invariant todo.Keys <= moved.Keys && moved == old(transports)
        invariant forall c :: c in todo ==> todo[c] == moved[c]
        invariant forall c :: c in moved ==>
          moved[c].closes == old(moved[c].closes) + (if c in todo then 0 else 1)
        invariant Valid() && View() == Clear(old(View()))
        decreases todo.Keys
      {
        var c :| c in todo;
        todo[c].CloseIdleConnections();
        todo := todo - {c};
      }
    }
  }
}
