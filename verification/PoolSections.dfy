/**
  The critical sections of the per-cluster transport pool of the user server, as functions
  on its two tables.  Both the class that keeps the tables and the interleaving model of its
  callers are written with these sections.
 */
module PoolSections {

  /** `allowed` is the set of clusters with the add-on; `cached` the transports by cluster. */
  datatype Pool<T> = Pool(allowed: set<string>, cached: map<string, T>)

  datatype Lookup<T> = Denied | Hit(transport: T) | Miss

  function Look<T>(p: Pool<T>, cluster: string): Lookup<T> {
    if cluster !in p.allowed then Denied
    else if cluster in p.cached then Hit(p.cached[cluster])
    else Miss
  }

  function Admit<T>(p: Pool<T>, cluster: string): Pool<T> {
    p.(allowed := p.allowed + {cluster})
  }

  function Insert<T>(p: Pool<T>, cluster: string, transport: T): Pool<T> {
    p.(cached := p.cached[cluster := transport])
  }

  function Evict<T>(p: Pool<T>, cluster: string): Pool<T> {
    Pool(p.allowed - {cluster}, p.cached - {cluster})
  }

  function Clear<T>(p: Pool<T>): Pool<T> {
    Pool({}, map[])
  }
}
