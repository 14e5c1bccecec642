/** The controller's methods, editing the desired objects and the API server in place. */
module Reconciler {
  import opened Wrappers
  import opened Decimal
  import opened ApiServer
  import opened ApplyLoop
  import opened Deployment

  /** A desired object, which ensure annotates and versions in place. */
  class Manifest {
    var value: Resource

    constructor (value: Resource)
      ensures this.value == value
    {
      this.value := value;
    }
  }

  class Cluster {
    const hash: Hash
    var server: Server
    /** What other clients will do before each of the next calls. */
    var env: seq<Turn>

    constructor (hash: Hash, server: Server, env: seq<Turn>)
      ensures this.hash == hash && this.server == server && this.env == env
    {
      this.hash, this.server, this.env := hash, server, env;
    }

    /** Other clients act; the result says whether the call that follows gets through. */
    method Yield() returns (fault: bool)
      modifies this
      ensures server == ApplyAll(old(server), Now(old(env)).writes) && env == Later(old(env))
      ensures fault == Now(old(env)).fault
    {
      fault := Now(env).fault;
      server := ApplyAll(server, Now(env).writes);
      env := Later(env);
    }

    method Get(id: Id) returns (r: Result<Resource, ApiError>)
      modifies this
      ensures server == ApplyAll(old(server), Now(old(env)).writes) && env == Later(old(env))
      ensures r == if Now(old(env)).fault then Err(Unreachable)
                   else if id in server.objects then Ok(server.objects[id]) else Err(NotFound)
    {
      var fault := Yield();
      if fault {
        return Err(Unreachable);
      }
      return if id in server.objects then Ok(server.objects[id]) else Err(NotFound);
    }

    method Create(r: Resource) returns (error: Option<ApiError>)
      modifies this
      ensures env == Later(old(env))
      ensures var now := ApplyAll(old(server), Now(old(env)).writes);
        && error == (if Now(old(env)).fault then Some(Unreachable) else CreateError(now, r))
        && server == if error.None? then Store(now, r) else now
    {
      var fault := Yield();
      error := if fault then Some(Unreachable) else CreateError(server, r);
      if error.None? {
        server := Store(server, r);
      }
    }

    method Update(r: Resource) returns (error: Option<ApiError>)
      modifies this
      ensures env == Later(old(env))
      ensures var now := ApplyAll(old(server), Now(old(env)).writes);
        && error == (if Now(old(env)).fault then Some(Unreachable) else UpdateError(now, r))
        && server == if error.None? then Store(now, r) else now
    {
      var fault := Yield();
      error := if fault then Some(Unreachable) else UpdateError(server, r);
      if error.None? {
        server := Store(server, r);
      }
    }

    /** The update part of ensure: a Service is copied first, anything else edited in place. */
    method Swap(m: Manifest, read: Option<Resource>) returns (outcome: Outcome)
      modifies this, m
      ensures var p := ApplyLoop.Swap(old(server), old(env), old(m.value), read);
        server == p.server && env == p.env && m.value == p.resource && outcome == p.outcome
    {
      var version := if read.Some? then read.value.version else 0;
      var body := BodyForUpdate(m.value, read);
      if body.Err? {
        return Failed(body.error);
      }
      var sent := m.value.(body := body.value, version := version);
      if !IsService(m.value.id) {
        m.value := m.value.(version := version);
      }
      var error := Update(sent);
      match error {
        case None => outcome := Updated;
        case Some(Conflict) => outcome := Retry;
        case Some(e) => outcome := Failed(Api(e));
      }
    }

    /** One call of ensure up to its recursion. */
    method Attempt(generation: Int64, m: Manifest) returns (outcome: Outcome)
      modifies this, m
      ensures var p := OnePass(old(server), old(env), generation, hash, old(m.value));
        server == p.server && env == p.env && m.value == p.resource && outcome == p.outcome
    {
      var renderedHash := hash(m.value.body);
      m.value := m.value.(annotations := m.value.annotations[GENERATION := Itoa(generation)]);
      m.value := m.value.(annotations := m.value.annotations[RENDERED_HASH := renderedHash]);

      var got := Get(m.value.id);
      var read := None;
      if got.Ok? {
        read := Some(got.value);
      } else if got.error != NotFound {
        return Failed(Api(got.error));
      } else {
        var error := Create(m.value);
        if error.None? {
          return Created;
        }
        if error.value != AlreadyExists {
          return Failed(Api(error.value));
        }
      }

      var have := if read.Some? then read.value.annotations else map[];
      var current := GenerationOf(have);
      if current.None? {
        return Failed(BadGeneration);
      }
      var tlsHashChanged := At(m.value.annotations, TLS_HASH) != At(have, TLS_HASH);
      var renderedHashChanged := renderedHash != At(have, RENDERED_HASH);
      if generation > current.value || tlsHashChanged || renderedHashChanged {
        outcome := Swap(m, read);
      } else {
        outcome := Unchanged;
      }
    }

    method Ensure(generation: Int64, m: Manifest) returns (created: bool, updated: bool, error: Option<Error>)
      requires Versioned(server) && hash(m.value.body) != ""
      modifies this, m
      ensures Versioned(server)
      ensures var p := ApplyLoop.Ensure(old(server), old(env), generation, hash, old(m.value)).last;
        && server == p.server && env == p.env && m.value == p.resource
        && created == p.outcome.Created? && updated == p.outcome.Updated?
        && error == if p.outcome.Failed? then Some(p.outcome.error) else None
      decreases Pending(env, m.value.id)
    {
      OnePassKeeps(server, env, generation, hash, m.value);
      var outcome := Attempt(generation, m);
      if outcome.Retry? {
        created, updated, error := Ensure(generation, m);
        return;
      }
      return outcome.Created?, outcome.Updated?, if outcome.Failed? then Some(outcome.error) else None;
    }

    /** Applies freshly rendered resources one after another. */
    method DeployProxyServer(generation: Int64, resources: seq<Resource>)
      returns (modified: bool, error: Option<Error>)
      requires Versioned(server) && Renderable(hash, resources)
      modifies this
      ensures Versioned(server)
      ensures Deployed(server, env, modified, error) ==
              Deploy(old(server), old(env), generation, hash, resources)
      ensures error.Some? ==> !modified
      ensures old(env) == [] && Distinct(resources) && error.None? ==>
        forall i :: 0 <= i < |resources| && !Current(old(server), generation, hash, resources[i]) ==>
          resources[i].id in server.objects && Carries(resources[i], server.objects[resources[i].id])
    {
      var anyCreated, anyUpdated := false, false;
      for n := 0 to |resources|
        invariant Versioned(server)
        invariant var rest := Deploy(server, env, generation, hash, resources[n..]);
          Deploy(old(server), old(env), generation, hash, resources) ==
          if rest.error.Some? then rest else rest.(modified := rest.modified || anyCreated || anyUpdated)
      {
        var m := new Manifest(resources[n]);
        EnsureTerminates(server, env, generation, hash, resources[n]);
        assert resources[n..][0] == resources[n] && resources[n..][1..] == resources[n + 1..];
        var created, updated, failure := Ensure(generation, m);
        if failure.Some? {
          return false, failure;
        }
        anyCreated := anyCreated || created;
        anyUpdated := anyUpdated || updated;
      }
      assert resources[|resources|..] == [];
      ghost var d := Deploy(old(server), old(env), generation, hash, resources);
      assert d == Deployed(server, env, anyCreated || anyUpdated, None);
      if old(env) == [] && Distinct(resources) {
        forall i | 0 <= i < |resources| && !Current(old(server), generation, hash, resources[i])
          ensures resources[i].id in server.objects && Carries(resources[i], server.objects[resources[i].id])
        {
          DeployCarries(old(server), generation, hash, resources, i);
        }
      }
      return anyCreated || anyUpdated, None;
    }
  }
}
