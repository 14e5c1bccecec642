/** Applying all resources of the proxy server, and where the apply loop does less than it may seem. */
module Deployment {
  import opened Wrappers
  import opened Decimal
  import opened ApiServer
  import opened ApplyLoop

  ghost predicate Renderable(hash: Hash, rs: seq<Resource>) {
    forall i :: 0 <= i < |rs| ==> hash(rs[i].body) != ""
  }

  ghost predicate Distinct(rs: seq<Resource>) {
    forall i, j :: 0 <= i < j < |rs| ==> rs[i].id != rs[j].id
  }

  datatype Deployed = Deployed(server: Server, env: seq<Turn>, modified: bool, error: Option<Error>)

  /** One resource after another; the first failure ends it and reports no modification. */
  function Deploy(sv: Server, env: seq<Turn>, generation: Int64, hash: Hash, rs: seq<Resource>): Deployed
    requires Versioned(sv) && Renderable(hash, rs)
    decreases rs
  {
    if rs == [] then Deployed(sv, env, false, None)
    else
      EnsureTerminates(sv, env, generation, hash, rs[0]);
      var p := Ensure(sv, env, generation, hash, rs[0]).last;
      if p.outcome.Failed? then Deployed(p.server, p.env, false, Some(p.outcome.error))
      else
        var rest := Deploy(p.server, p.env, generation, hash, rs[1..]);
        if rest.error.Some? then rest
        else rest.(modified := rest.modified || p.outcome.Created? || p.outcome.Updated?)
  }

  // ---------------------------------------------------------------------------------------
  // Undisturbed deployments.

  ghost predicate Current(sv: Server, generation: Int64, hash: Hash, r: Resource) {
    r.id in sv.objects && UpToDate(hash, generation, r, sv.objects[r.id])
  }

  ghost predicate OthersKept(before: Server, after: Server, id: Id) {
    forall other :: other != id ==>
      && (other in after.objects <==> other in before.objects)
      && (other in before.objects ==> after.objects[other] == before.objects[other])
  }

  lemma PassLeavesOthers(sv: Server, generation: Int64, hash: Hash, r: Resource)
    ensures var p := OnePass(sv, [], generation, hash, r);
      p.env == [] && OthersKept(sv, p.server, r.id)
  {
  }

  lemma PassAloneUnchangedIff(sv: Server, generation: Int64, hash: Hash, r: Resource)
    requires hash(r.body) != ""
    ensures var p := OnePass(sv, [], generation, hash, r);
      && (p.outcome.Unchanged? <==> Current(sv, generation, hash, r))
      && (p.outcome.Unchanged? ==> p.server == sv)
  {
  }

  /** With nobody interfering, ensure leaves an object alone exactly when it is up to date,
      makes it up to date when it succeeds, and touches no other object. */
  lemma EnsureAlone(sv: Server, generation: Int64, hash: Hash, r: Resource)
    requires Versioned(sv) && hash(r.body) != ""
    ensures var e := Ensure(sv, [], generation, hash, r);
      && e.retries == 0 && e.last == OnePass(sv, [], generation, hash, r) && e.last.env == []
      && (e.last.outcome.Unchanged? <==> Current(sv, generation, hash, r))
      && (e.last.outcome.Unchanged? ==> e.last.server == sv)
      && (Succeeded(e.last.outcome) ==> Current(e.last.server, generation, hash, r))
      && (Succeeded(e.last.outcome) && !e.last.outcome.Unchanged? ==> Carries(r, e.last.server.objects[r.id]))
      && OthersKept(sv, e.last.server, r.id)
  {
    OnePassKeeps(sv, [], generation, hash, r);
    PassLeavesOthers(sv, generation, hash, r);
    PassAloneUnchangedIff(sv, generation, hash, r);
  }

  /** With nobody interfering, a freshly rendered resource is applied unless the object found has
      an unreadable generation or a Service turns out not to be one. */
  lemma EnsureAloneSucceedsIff(sv: Server, generation: Int64, hash: Hash, r: Resource)
    requires Versioned(sv) && hash(r.body) != "" && r.version == 0
    ensures Succeeded(Ensure(sv, [], generation, hash, r).last.outcome) <==>
      || r.id !in sv.objects
      || Current(sv, generation, hash, r)
      || (&& (At(sv.objects[r.id].annotations, GENERATION) == ""
              || Atoi(At(sv.objects[r.id].annotations, GENERATION)).Some?)
          && (IsService(r.id) ==> r.body.ServiceBody? && sv.objects[r.id].body.ServiceBody?))
  {
    EnsureTerminates(sv, [], generation, hash, r);
    EnsureAlone(sv, generation, hash, r);
  }

  ghost predicate AllCurrent(sv: Server, generation: Int64, hash: Hash, rs: seq<Resource>) {
    forall i :: 0 <= i < |rs| ==> Current(sv, generation, hash, rs[i])
  }

  lemma AllCurrentCons(sv: Server, generation: Int64, hash: Hash, rs: seq<Resource>)
    requires rs != []
    ensures AllCurrent(sv, generation, hash, rs) <==>
      Current(sv, generation, hash, rs[0]) && AllCurrent(sv, generation, hash, rs[1..])
  {
    assert forall i :: 0 < i < |rs| ==> rs[i] == rs[1..][i - 1];
  }

  /** An undisturbed deployment does its first resource and then the rest. */
  lemma DeployAloneCons(sv: Server, generation: Int64, hash: Hash, rs: seq<Resource>)
    requires Versioned(sv) && Renderable(hash, rs) && rs != []
    ensures var p := OnePass(sv, [], generation, hash, rs[0]);
      && Versioned(p.server) && Renderable(hash, rs[1..])
      && var d, rest := Deploy(sv, [], generation, hash, rs), Deploy(p.server, [], generation, hash, rs[1..]);
      && (d.error.None? <==> !p.outcome.Failed? && rest.error.None?)
      && (d.error.None? ==> d.server == rest.server && (d.modified <==> rest.modified || !p.outcome.Unchanged?))
      && (p.outcome.Unchanged? ==> d == rest)
  {
    EnsureTerminates(sv, [], generation, hash, rs[0]);
    EnsureAlone(sv, generation, hash, rs[0]);
  }

  /** An undisturbed deployment changes nothing exactly when every object is up to date. */
  lemma {:induction false} DeployIsNoopIff(sv: Server, generation: Int64, hash: Hash, rs: seq<Resource>)
    requires Versioned(sv) && Renderable(hash, rs)
    ensures var d := Deploy(sv, [], generation, hash, rs);
      && (d.error.None? && !d.modified <==> AllCurrent(sv, generation, hash, rs))
      && (d.error.None? && !d.modified ==> d.server == sv)
    decreases rs
  {
    if rs != [] {
      DeployAloneCons(sv, generation, hash, rs);
      AllCurrentCons(sv, generation, hash, rs);
      PassAloneUnchangedIff(sv, generation, hash, rs[0]);
      if OnePass(sv, [], generation, hash, rs[0]).outcome.Unchanged? {
        DeployIsNoopIff(sv, generation, hash, rs[1..]);
      }
    }
  }

  lemma {:induction false} DeployLeavesOthers(
    sv: Server, generation: Int64, hash: Hash, rs: seq<Resource>, id: Id)
    requires Versioned(sv) && Renderable(hash, rs)
    requires forall i :: 0 <= i < |rs| ==> rs[i].id != id
    ensures var d := Deploy(sv, [], generation, hash, rs);
      (id in d.server.objects <==> id in sv.objects) && (id in sv.objects ==> d.server.objects[id] == sv.objects[id])
    decreases rs
  {
    if rs != [] {
      EnsureTerminates(sv, [], generation, hash, rs[0]);
      EnsureAlone(sv, generation, hash, rs[0]);
      var p := Ensure(sv, [], generation, hash, rs[0]).last;
      DeployLeavesOthers(p.server, generation, hash, rs[1..], id);
    }
  }

  lemma {:induction false} DeployEstablishes(
    sv: Server, generation: Int64, hash: Hash, rs: seq<Resource>, i: nat)
    requires Versioned(sv) && Renderable(hash, rs) && Distinct(rs) && i < |rs|
    requires Deploy(sv, [], generation, hash, rs).error.None?
    ensures Current(Deploy(sv, [], generation, hash, rs).server, generation, hash, rs[i])
    decreases rs
  {
    EnsureTerminates(sv, [], generation, hash, rs[0]);
    EnsureAlone(sv, generation, hash, rs[0]);
    var p := Ensure(sv, [], generation, hash, rs[0]).last;
    if i == 0 {
      DeployLeavesOthers(p.server, generation, hash, rs[1..], rs[0].id);
    } else {
      DeployEstablishes(p.server, generation, hash, rs[1..], i - 1);
    }
  }

  /** After an undisturbed success every object that was not up to date is the desired one. */
  lemma {:induction false} DeployCarries(
    sv: Server, generation: Int64, hash: Hash, rs: seq<Resource>, i: nat)
    requires Versioned(sv) && Renderable(hash, rs) && Distinct(rs) && i < |rs|
    requires Deploy(sv, [], generation, hash, rs).error.None? && !Current(sv, generation, hash, rs[i])
    ensures rs[i].id in Deploy(sv, [], generation, hash, rs).server.objects
    ensures Carries(rs[i], Deploy(sv, [], generation, hash, rs).server.objects[rs[i].id])
    decreases rs
  {
    DeployAloneCons(sv, generation, hash, rs);
    EnsureAlone(sv, generation, hash, rs[0]);
    var p := OnePass(sv, [], generation, hash, rs[0]);
    if i == 0 {
      DeployLeavesOthers(p.server, generation, hash, rs[1..], rs[0].id);
    } else {
      DeployCarries(p.server, generation, hash, rs[1..], i - 1);
    }
  }

  /**
    In any environment, a deployment that fails reports no modification and has done exactly the
    resources before the first one that could not be applied.
   */
  lemma {:induction false} FailedDeployIsPrefix(
    sv: Server, env: seq<Turn>, generation: Int64, hash: Hash, rs: seq<Resource>) returns (n: nat)
    requires Versioned(sv) && Renderable(hash, rs)
    requires Deploy(sv, env, generation, hash, rs).error.Some?
    ensures n < |rs| && !Deploy(sv, env, generation, hash, rs).modified
    ensures var d, before := Deploy(sv, env, generation, hash, rs), Deploy(sv, env, generation, hash, rs[..n]);
      && before.error.None? && Versioned(before.server)
      && var p := Ensure(before.server, before.env, generation, hash, rs[n]).last;
      && p.outcome == Failed(d.error.value) && d.server == p.server && d.env == p.env
    decreases rs
  {
    EnsureTerminates(sv, env, generation, hash, rs[0]);
    var p := Ensure(sv, env, generation, hash, rs[0]).last;
    if p.outcome.Failed? {
      n := 0;
    } else {
      var m := FailedDeployIsPrefix(p.server, p.env, generation, hash, rs[1..]);
      n := m + 1;
      assert rs[..n][0] == rs[0] && rs[..n][1..] == rs[1..][..m];
    }
  }

  lemma {:induction false} DeployVersioned(sv: Server, env: seq<Turn>, generation: Int64, hash: Hash, rs: seq<Resource>)
    requires Versioned(sv) && Renderable(hash, rs)
    ensures Versioned(Deploy(sv, env, generation, hash, rs).server)
    decreases rs
  {
    if rs != [] {
      EnsureTerminates(sv, env, generation, hash, rs[0]);
      var p := Ensure(sv, env, generation, hash, rs[0]).last;
      DeployVersioned(p.server, p.env, generation, hash, rs[1..]);
    }
  }

  /** After a successful deployment a second undisturbed one changes nothing and says so. */
  lemma SecondDeployIsNoop(sv: Server, generation: Int64, hash: Hash, rs: seq<Resource>)
    requires Versioned(sv) && Renderable(hash, rs) && Distinct(rs)
    requires Deploy(sv, [], generation, hash, rs).error.None?
    ensures var once := Deploy(sv, [], generation, hash, rs).server;
      Versioned(once) && Deploy(once, [], generation, hash, rs) == Deployed(once, [], false, None)
  {
    DeployVersioned(sv, [], generation, hash, rs);
    var once := Deploy(sv, [], generation, hash, rs).server;
    forall i | 0 <= i < |rs| ensures Current(once, generation, hash, rs[i]) {
      DeployEstablishes(sv, generation, hash, rs, i);
    }
    DeployIsNoopIff(once, generation, hash, rs);
    DeployEnv(once, generation, hash, rs);
  }

  lemma {:induction false} DeployEnv(sv: Server, generation: Int64, hash: Hash, rs: seq<Resource>)
    requires Versioned(sv) && Renderable(hash, rs)
    ensures Deploy(sv, [], generation, hash, rs).env == []
    decreases rs
  {
    if rs != [] {
      EnsureTerminates(sv, [], generation, hash, rs[0]);
      EnsureAlone(sv, generation, hash, rs[0]);
      DeployEnv(Ensure(sv, [], generation, hash, rs[0]).last.server, generation, hash, rs[1..]);
    }
  }

  // ---------------------------------------------------------------------------------------
  // Two corner cases of the loop.

  /** The server as the next call of a client finds it, and as the second and third do. */
  function AtFirst(sv: Server, env: seq<Turn>): Server {
    ApplyAll(sv, Now(env).writes)
  }

  function AtSecond(sv: Server, env: seq<Turn>): Server {
    AtFirst(AtFirst(sv, env), Later(env))
  }

  function AtThird(sv: Server, env: seq<Turn>): Server {
    AtFirst(AtSecond(sv, env), Later(Later(env)))
  }

  /** The Get misses the object, the Create finds it there, and it is still there for the Update. */
  ghost predicate LosesCreate(sv: Server, env: seq<Turn>, r: Resource) {
    && !Now(env).fault && r.id !in AtFirst(sv, env).objects
    && !Now(Later(env)).fault && r.id in AtSecond(sv, env).objects
    && !Now(Later(Later(env))).fault && r.id in AtThird(sv, env).objects
  }

  /**
    A pass overwrites an object that was never read exactly when another writer creates it
    between Get and Create, for any resource that a Create accepts at all.  What it overwrites is
    whatever is there by the time of the update, and a Service is sent without the network fields
    that had been assigned to it.
   */
  lemma BlindUpdateIff(sv: Server, env: seq<Turn>, generation: Int64, hash: Hash, r: Resource)
    requires hash(r.body) != ""
    ensures var p := OnePass(sv, env, generation, hash, r);
      && (p.outcome.Updated? && p.read.None? <==>
          LosesCreate(sv, env, r) && r.version == 0 && (IsService(r.id) ==> r.body.ServiceBody?))
      && (p.outcome.Updated? && p.read.None? ==>
            && p.overwrote == Some(AtThird(sv, env).objects[r.id])
            && r.id in p.server.objects
            && p.server.objects[r.id].body ==
               if IsService(r.id) then ServiceBody(r.body.service.(clusterIP := "", clusterIPs := [])) else r.body)
  {
    var stamped := Stamp(hash, generation, r);
    var get, create := AtFirst(sv, env), AtSecond(sv, env);
    if !Now(env).fault && r.id !in get.objects {
      assert OnePass(sv, env, generation, hash, r) == CreateOrCompare(get, Later(env), generation, stamped);
      if !Now(Later(env)).fault && r.version == 0 && r.id in create.objects {
        LostCreateSwaps(create, Later(Later(env)), generation, hash, r);
        BlindSwap(create, Later(Later(env)), stamped);
      }
    }
  }

  lemma LostCreateSwaps(sv: Server, env: seq<Turn>, generation: Int64, hash: Hash, r: Resource)
    requires hash(r.body) != ""
    ensures Compare(sv, env, generation, Stamp(hash, generation, r), None) ==
            Swap(sv, env, Stamp(hash, generation, r), None)
  {
    var have: map<string, string> := map[];
    assert GenerationOf(have) == Some(0) && At(have, RENDERED_HASH) == "";
  }

  lemma BlindSwap(sv: Server, env: seq<Turn>, r: Resource)
    ensures var p, now := Swap(sv, env, r, None), AtFirst(sv, env);
      && p.read.None?
      && (p.outcome.Updated? <==>
          !Now(env).fault && r.id in now.objects && (IsService(r.id) ==> r.body.ServiceBody?))
      && (p.outcome.Updated? ==>
            && p.overwrote == Some(now.objects[r.id]) && r.id in p.server.objects
            && p.server.objects[r.id].body ==
               if IsService(r.id) then ServiceBody(r.body.service.(clusterIP := "", clusterIPs := [])) else r.body)
  {
  }

  /** The object found is to be replaced and can be. */
  ghost predicate WouldSend(hash: Hash, generation: Int64, r: Resource, found: Resource) {
    && GenerationOf(found.annotations).Some? && !UpToDate(hash, generation, r, found)
    && (IsService(r.id) ==> r.body.ServiceBody? && found.body.ServiceBody?)
  }

  /** What becomes of a pass that finds the object, for every behaviour of others: it retries
      exactly if the object has another version by the time of the update. */
  lemma FoundPassOutcome(sv: Server, env: seq<Turn>, generation: Int64, hash: Hash, r: Resource)
    requires Versioned(sv) && hash(r.body) != "" && !Now(env).fault && r.id in AtFirst(sv, env).objects
    ensures var p, found, next :=
        OnePass(sv, env, generation, hash, r), AtFirst(sv, env).objects[r.id], AtSecond(sv, env).objects;
      && p.read == Some(found)
      && (p.outcome.Unchanged? <==> UpToDate(hash, generation, r, found))
      && (p.outcome == Failed(BadGeneration) <==> GenerationOf(found.annotations).None?)
      && (p.outcome.Retry? <==> WouldSend(hash, generation, r, found) && !Now(Later(env)).fault
                                && r.id in next && next[r.id].version != found.version)
      && (p.outcome.Updated? <==> WouldSend(hash, generation, r, found) && !Now(Later(env)).fault
                                  && r.id in next && next[r.id].version == found.version)
  {
    var now, stamped := AtFirst(sv, env), Stamp(hash, generation, r);
    var found := now.objects[r.id];
    ApplyAllKeeps(sv, Now(env).writes, r.id);
    assert OnePass(sv, env, generation, hash, r) == Compare(now, Later(env), generation, stamped, Some(found));
    if WouldSend(hash, generation, r, found) {
      SendOutcome(now, Later(env), stamped, BodyForUpdate(stamped, Some(found)).value, found);
    }
  }

  lemma SendOutcome(sv: Server, env: seq<Turn>, r: Resource, body: Body, found: Resource)
    requires found.version > 0
    ensures var p, next := Send(sv, env, r, body, Some(found)), AtFirst(sv, env).objects;
      && (p.outcome.Retry? <==> !Now(env).fault && r.id in next && next[r.id].version != found.version)
      && (p.outcome.Updated? <==> !Now(env).fault && r.id in next && next[r.id].version == found.version)
      && !p.outcome.Unchanged? && p.outcome != Failed(BadGeneration) && p.read == Some(found)
  {
  }

  const QUIET := Turn([], false)

  /** One such run: another writer puts any object between Get and Create. */
  lemma UpdateAfterLostCreateIsBlind(sv: Server, generation: Int64, hash: Hash, r: Resource, x: Resource)
    requires Versioned(sv) && hash(r.body) != ""
    requires r.id !in sv.objects && x.id == r.id && r.version == 0
    requires IsService(r.id) ==> r.body.ServiceBody?
    ensures var p := Ensure(sv, [QUIET, Turn([Put(x)], false)], generation, hash, r).last;
      p.outcome.Updated? && p.read.None? && p.overwrote == Some(x.(version := sv.clock + 1))
  {
    var env := [QUIET, Turn([Put(x)], false)];
    assert Later(env) == [Turn([Put(x)], false)] && Later(Later(env)) == [];
    var put := Store(sv, x);
    assert ApplyAll(sv, [Put(x)]) == ApplyAll(put, []) == put;
    assert AtFirst(sv, env) == sv && AtSecond(sv, env) == put && AtThird(sv, env) == put;
    assert Now(Later(env)) == Turn([Put(x)], false) && Now(Later(Later(env))) == QUIET;
    BlindUpdateIff(sv, env, generation, hash, r);
  }

  lemma SwapKeepsVersion(sv: Server, env: seq<Turn>, r: Resource, found: Resource)
    requires r.version == 0 && found.version > 0
    requires Swap(sv, env, r, Some(found)).outcome.Retry?
    ensures Swap(sv, env, r, Some(found)).resource.version == 0 <==> IsService(r.id)
  {
  }

  /** A retried resource still carries the version of the lost race, unless it is a Service. */
  lemma RetryKeepsVersion(sv: Server, env: seq<Turn>, generation: Int64, hash: Hash, r: Resource)
    requires Versioned(sv) && hash(r.body) != "" && r.version == 0
    requires OnePass(sv, env, generation, hash, r).outcome.Retry?
    ensures OnePass(sv, env, generation, hash, r).resource.version == 0 <==> IsService(r.id)
  {
    var now, stamped := AtFirst(sv, env), Stamp(hash, generation, r);
    ApplyAllKeeps(sv, Now(env).writes, r.id);
    OnePassKeeps(sv, env, generation, hash, r);
    MissReadsNothing(now, Later(env), generation, stamped);
    var p := OnePass(sv, env, generation, hash, r);
    assert p == Swap(now, Later(env), stamped, Some(now.objects[r.id]));
    SwapKeepsVersion(now, Later(env), stamped, now.objects[r.id]);
  }

  lemma MissReadsNothing(sv: Server, env: seq<Turn>, generation: Int64, r: Resource)
    ensures CreateOrCompare(sv, env, generation, r).read.None?
  {
  }

  /** So when the object is gone by the time of the retry, it is created again exactly if it
      is a Service; any other kind fails because creation refuses a version.  This holds for
      whatever others do meanwhile and afterwards. */
  lemma RecreateAfterConflictIffService(sv: Server, env: seq<Turn>, generation: Int64, hash: Hash, r: Resource)
    requires Versioned(sv) && hash(r.body) != "" && r.version == 0
    requires OnePass(sv, env, generation, hash, r).outcome.Retry?
    requires var p := OnePass(sv, env, generation, hash, r);
      && !Now(p.env).fault && r.id !in AtFirst(p.server, p.env).objects
      && !Now(Later(p.env)).fault
    ensures var e, p := Ensure(sv, env, generation, hash, r), OnePass(sv, env, generation, hash, r);
      && (!IsService(r.id) ==> e.last.outcome == Failed(Api(VersionOnCreate)))
      && (IsService(r.id) && r.id !in AtSecond(p.server, p.env).objects ==> e.last.outcome == Created)
  {
    RetryKeepsVersion(sv, env, generation, hash, r);
    OnePassKeeps(sv, env, generation, hash, r);
    var p := OnePass(sv, env, generation, hash, r);
    RetryAfterDeletion(p.server, p.env, generation, hash, p.resource);
  }

  /** A pass that misses the object: with a version its Create is refused. */
  lemma RetryAfterDeletion(sv: Server, env: seq<Turn>, generation: Int64, hash: Hash, r: Resource)
    requires !Now(env).fault && r.id !in AtFirst(sv, env).objects && !Now(Later(env)).fault
    ensures var o := OnePass(sv, env, generation, hash, r).outcome;
      && (r.version != 0 ==> o == Failed(Api(VersionOnCreate)))
      && (r.version == 0 && r.id !in AtSecond(sv, env).objects ==> o == Created)
  {
    assert OnePass(sv, env, generation, hash, r) ==
           CreateOrCompare(AtFirst(sv, env), Later(env), generation, Stamp(hash, generation, r));
    assert AtSecond(sv, env) == ApplyAll(AtFirst(sv, env), Now(Later(env)).writes);
  }
}
