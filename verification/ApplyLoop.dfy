/** The controller's apply loop: get, create or compare-and-swap, and retry on conflict. */
module ApplyLoop {
  import opened Wrappers
  import opened Decimal
  import opened ApiServer

  const GENERATION := "proxy.open-cluster-management.io/configuration-generation"
  const TLS_HASH := "proxy.open-cluster-management.io/tls-config-hash"
  const RENDERED_HASH := "proxy.open-cluster-management.io/rendered-hash"

  type Hash = Body -> string

  function At(m: map<string, string>, key: string): string {
    if key in m then m[key] else ""
  }

  predicate IsService(id: Id) {
    id.kind == Kind("", "Service")
  }

  function Stamp(hash: Hash, generation: Int64, r: Resource): Resource {
    r.(annotations := r.annotations[GENERATION := Itoa(generation)][RENDERED_HASH := hash(r.body)])
  }

  /** An object without a generation counts as generation 0; an unreadable one is an error. */
  function GenerationOf(annotations: map<string, string>): Option<int> {
    var text := At(annotations, GENERATION);
    if text == "" then Some(0) else Atoi(text)
  }

  /** `have` are the annotations found, empty when the object was not found. */
  predicate NeedsUpdate(generation: Int64, want: map<string, string>, have: map<string, string>)
    requires GenerationOf(have).Some?
  {
    || generation > GenerationOf(have).value
    || At(want, TLS_HASH) != At(have, TLS_HASH)
    || At(want, RENDERED_HASH) != At(have, RENDERED_HASH)
  }

  const NO_SERVICE := ServiceSpec("", [], [], None, "")

  /** A copy of the desired Service with the network fields the API server had assigned. */
  function ServiceForUpdate(desired: ServiceSpec, current: ServiceSpec): ServiceSpec {
    desired.(clusterIP := current.clusterIP,
             clusterIPs := current.clusterIPs,
             ipFamilies := if desired.ipFamilies == [] then current.ipFamilies else desired.ipFamilies,
             ipFamilyPolicy := if desired.ipFamilyPolicy.None? then current.ipFamilyPolicy else desired.ipFamilyPolicy)
  }

  datatype Error = Api(error: ApiError) | BadGeneration | NotAService

  datatype Outcome = Created | Updated | Unchanged | Retry | Failed(error: Error)

  /**
    One pass of ensure: what it left behind, the object its Get returned, the object its
    Update replaced, and the resource it is given back (the caller's object is edited in place).
   */
  datatype Pass = Pass(
    server: Server, env: seq<Turn>, resource: Resource, outcome: Outcome,
    read: Option<Resource>, overwrote: Option<Resource>)

  /** The body sent by an update; a Service takes its network fields from what was found. */
  function BodyForUpdate(r: Resource, read: Option<Resource>): Result<Body, Error> {
    if !IsService(r.id) then Ok(r.body)
    else if !r.body.ServiceBody? then Err(NotAService)
    else if read.None? then Ok(ServiceBody(ServiceForUpdate(r.body.service, NO_SERVICE)))
    else if !read.value.body.ServiceBody? then Err(NotAService)
    else Ok(ServiceBody(ServiceForUpdate(r.body.service, read.value.body.service)))
  }

  /** Sends an update with the version that was read, or with none. */
  function Send(sv: Server, env: seq<Turn>, r: Resource, body: Body, read: Option<Resource>): Pass {
    var version := if read.Some? then read.value.version else 0;
    var sent := r.(body := body, version := version);
    // Only a Service is sent as a copy; any other resource keeps the version it was sent with.
    var kept := if IsService(r.id) then r else sent;
    var now := ApplyAll(sv, Now(env).writes);
    if Now(env).fault then Pass(now, Later(env), kept, Failed(Api(Unreachable)), read, None)
    else match UpdateError(now, sent)
      case None =>
        Pass(Store(now, sent), Later(env), kept, Updated, read, Some(now.objects[r.id]))
      case Some(Conflict) => Pass(now, Later(env), kept, Retry, read, None)
      case Some(e) => Pass(now, Later(env), kept, Failed(Api(e)), read, None)
  }

  /** The update part of a pass, for a stamped resource. */
  function Swap(sv: Server, env: seq<Turn>, r: Resource, read: Option<Resource>): Pass {
    match BodyForUpdate(r, read)
    case Err(e) => Pass(sv, env, r, Failed(e), read, None)
    case Ok(body) => Send(sv, env, r, body, read)
  }

  /** The part of a pass after the object was looked up, or found to exist on creation. */
  function Compare(sv: Server, env: seq<Turn>, generation: Int64, r: Resource, read: Option<Resource>): Pass {
    var have := if read.Some? then read.value.annotations else map[];
    if GenerationOf(have).None? then Pass(sv, env, r, Failed(BadGeneration), read, None)
    else if NeedsUpdate(generation, r.annotations, have) then Swap(sv, env, r, read)
    else Pass(sv, env, r, Unchanged, read, None)
  }

  function CreateOrCompare(sv: Server, env: seq<Turn>, generation: Int64, r: Resource): Pass {
    var now := ApplyAll(sv, Now(env).writes);
    if Now(env).fault then Pass(now, Later(env), r, Failed(Api(Unreachable)), None, None)
    else match CreateError(now, r)
      case None => Pass(Store(now, r), Later(env), r, Created, None, None)
      case Some(AlreadyExists) => Compare(now, Later(env), generation, r, None)
      case Some(e) => Pass(now, Later(env), r, Failed(Api(e)), None, None)
  }

  function OnePass(sv: Server, env: seq<Turn>, generation: Int64, hash: Hash, resource: Resource): Pass {
    var r := Stamp(hash, generation, resource);
    var now := ApplyAll(sv, Now(env).writes);
    if Now(env).fault then Pass(now, Later(env), r, Failed(Api(Unreachable)), None, None)
    else if r.id in now.objects then Compare(now, Later(env), generation, r, Some(now.objects[r.id]))
    else CreateOrCompare(now, Later(env), generation, r)
  }

  // ---------------------------------------------------------------------------------------
  // One pass.

  /** The update itself, once it is known what is sent. */
  lemma UpdateKeeps(sv: Server, ws: seq<Write>, sent: Resource)
    requires Versioned(sv)
    requires sent.version != 0 ==> sent.id in sv.objects && sent.version == sv.objects[sent.id].version
    ensures var now := ApplyAll(sv, ws);
      && Versioned(now) && Versioned(Store(now, sent))
      && (UpdateError(now, sent) == Some(Conflict) ==> sent.version != 0 && Count(ws, sent.id) > 0)
      && (UpdateError(now, sent).None? ==> sent.id in now.objects)
      && (UpdateError(now, sent).None? && sent.version != 0 ==> now.objects[sent.id] == sv.objects[sent.id])
  {
    ApplyAllKeeps(sv, ws, sent.id);
  }

  ghost predicate Found(sv: Server, r: Resource, read: Option<Resource>) {
    read.Some? ==> r.id in sv.objects && sv.objects[r.id] == read.value
  }

  lemma SendEnds(sv: Server, env: seq<Turn>, r: Resource, body: Body, read: Option<Resource>)
    requires Versioned(sv) && Found(sv, r, read)
    ensures var p := Send(sv, env, r, body, read);
      && Versioned(p.server) && p.env == Later(env) && p.read == read
      && p.resource.id == r.id && p.resource.annotations == r.annotations
      && p.resource.body == (if IsService(r.id) then r.body else body)
      && (p.outcome.Retry? ==> Count(Now(env).writes, r.id) > 0 && read.Some?)
  {
    UpdateKeeps(sv, Now(env).writes, r.(body := body, version := if read.Some? then read.value.version else 0));
  }

  lemma SendWrites(sv: Server, env: seq<Turn>, r: Resource, body: Body, read: Option<Resource>)
    requires Versioned(sv) && Found(sv, r, read)
    ensures var p := Send(sv, env, r, body, read);
      p.outcome.Updated? ==>
        && p.overwrote.Some? && r.id in p.server.objects
        && (p.overwrote == read <==> read.Some?)
        && p.server.objects[r.id].annotations == r.annotations && p.server.objects[r.id].body == body
  {
    UpdateKeeps(sv, Now(env).writes, r.(body := body, version := if read.Some? then read.value.version else 0));
  }

  lemma SwapKeeps(sv: Server, env: seq<Turn>, r: Resource, read: Option<Resource>)
    requires Versioned(sv) && Found(sv, r, read)
    ensures var p := Swap(sv, env, r, read);
      && Versioned(p.server) && p.read == read
      && p.resource.id == r.id && p.resource.body == r.body && p.resource.annotations == r.annotations
      && Pending(p.env, r.id) <= Pending(env, r.id)
      && (p.outcome.Retry? ==> Pending(p.env, r.id) < Pending(env, r.id) && read.Some?)
      && (p.outcome.Updated? ==> p.overwrote.Some? && r.id in p.server.objects
                                 && (p.overwrote == read <==> read.Some?)
                                 && p.server.objects[r.id].annotations == r.annotations
                                 && Ok(p.server.objects[r.id].body) == BodyForUpdate(r, read))
  {
    var body := BodyForUpdate(r, read);
    if body.Ok? {
      SendEnds(sv, env, r, body.value, read);
      SendWrites(sv, env, r, body.value, read);
      PendingNow(env, r.id);
    }
  }

  /** What the object found or written has to look like for ensure to be satisfied. */
  ghost predicate UpToDate(hash: Hash, generation: Int64, want: Resource, have: Resource) {
    && At(have.annotations, RENDERED_HASH) == hash(want.body)
    && At(have.annotations, TLS_HASH) == At(want.annotations, TLS_HASH)
    && GenerationOf(have.annotations).Some? && GenerationOf(have.annotations).value >= generation
  }

  /** An object without a generation is up to date for generations up to 0, any other for those up
      to its own, and one with an unreadable generation for none. */
  lemma GenerationsIff(hash: Hash, generation: Int64, want: Resource, have: Resource)
    requires At(have.annotations, RENDERED_HASH) == hash(want.body)
    requires At(have.annotations, TLS_HASH) == At(want.annotations, TLS_HASH)
    ensures At(have.annotations, GENERATION) == "" ==> (UpToDate(hash, generation, want, have) <==> generation <= 0)
    ensures At(have.annotations, GENERATION) != "" ==>
      (UpToDate(hash, generation, want, have) <==>
       Atoi(At(have.annotations, GENERATION)).Some? && generation <= Atoi(At(have.annotations, GENERATION)).value)
  {
  }

  /** A stamped resource reads back as up to date with itself. */
  lemma StampIsUpToDate(hash: Hash, generation: Int64, r: Resource, have: Resource)
    requires have.annotations == Stamp(hash, generation, r).annotations
    ensures UpToDate(hash, generation, r, have)
    ensures GenerationOf(have.annotations) == Some(generation)
  {
    AtoiRoundTrip(generation);
  }

  predicate Succeeded(o: Outcome) {
    o.Created? || o.Updated? || o.Unchanged?
  }

  /** The same annotations but for the two that ensure sets itself. */
  ghost predicate SameAnnotations(want: map<string, string>, have: map<string, string>) {
    forall key :: key != GENERATION && key != RENDERED_HASH ==>
      (key in have <==> key in want) && (key in have ==> have[key] == want[key])
  }

  /**
    What was written for a desired resource is that resource: its annotations but for ensure's own
    two, and its body; of a Service, all of the body apart from network fields it leaves open.
   */
  ghost predicate Carries(want: Resource, have: Resource) {
    && SameAnnotations(want.annotations, have.annotations)
    && (want.id.kind != Kind("", "Service") ==> have.body == want.body)
    && (want.id.kind == Kind("", "Service") && have.body != want.body ==>
          && want.body.ServiceBody? && have.body.ServiceBody?
          && have.body.service.rest == want.body.service.rest
          && (want.body.service.ipFamilies != [] ==> have.body.service.ipFamilies == want.body.service.ipFamilies)
          && (want.body.service.ipFamilyPolicy.Some? ==>
                have.body.service.ipFamilyPolicy == want.body.service.ipFamilyPolicy))
  }

  /** Everything the results below need to know about one pass. */
  ghost predicate PassKeeps(env: seq<Turn>, generation: Int64, hash: Hash, r: Resource, p: Pass) {
    && Versioned(p.server)
    && p.resource.id == r.id && p.resource.body == r.body
    && SameAnnotations(r.annotations, p.resource.annotations)
    && Pending(p.env, r.id) <= Pending(env, r.id)
    && (p.outcome.Retry? ==> Pending(p.env, r.id) < Pending(env, r.id) && p.read.Some?)
    && (p.outcome.Created? || p.outcome.Updated? ==>
          && r.id in p.server.objects
          && p.server.objects[r.id].annotations == Stamp(hash, generation, r).annotations
          && GenerationOf(p.server.objects[r.id].annotations) == Some(generation)
          && UpToDate(hash, generation, r, p.server.objects[r.id])
          && Carries(r, p.server.objects[r.id]))
    && (p.outcome.Failed? ==> p.outcome.error != Api(Conflict) && p.outcome.error != Api(AlreadyExists))
    && (p.outcome.Created? ==> p.read.None? && p.server.objects[r.id].body == r.body)
    && (p.outcome.Updated? ==> p.overwrote.Some? && (p.overwrote == p.read <==> p.read.Some?)
                               && Ok(p.server.objects[r.id].body) == BodyForUpdate(r, p.read))
    && (p.outcome.Unchanged? ==> p.read.Some? && UpToDate(hash, generation, r, p.read.value))
  }

  lemma UpdateCarries(want: Resource, stamped: Resource, have: Resource, read: Option<Resource>)
    requires stamped.id == want.id && stamped.body == want.body
    requires SameAnnotations(want.annotations, stamped.annotations)
    requires have.annotations == stamped.annotations && Ok(have.body) == BodyForUpdate(stamped, read)
    ensures Carries(want, have)
  {
  }

  lemma SwapPassKeeps(
    sv: Server, env: seq<Turn>, generation: Int64, hash: Hash, resource: Resource, read: Option<Resource>)
    requires Versioned(sv) && Found(sv, resource, read)
    ensures PassKeeps(env, generation, hash, resource, Swap(sv, env, Stamp(hash, generation, resource), read))
  {
    var r := Stamp(hash, generation, resource);
    SwapKeeps(sv, env, r, read);
    var p := Swap(sv, env, r, read);
    if p.outcome.Updated? {
      StampIsUpToDate(hash, generation, resource, p.server.objects[r.id]);
      UpdateCarries(resource, r, p.server.objects[r.id], read);
    }
    SwapEndsOnce(sv, env, r, read);
  }

  lemma SwapEndsOnce(sv: Server, env: seq<Turn>, r: Resource, read: Option<Resource>)
    ensures var o := Swap(sv, env, r, read).outcome;
      o.Updated? || o.Retry? || (o.Failed? && o.error != Api(Conflict) && o.error != Api(AlreadyExists))
  {
  }

  lemma CompareKeeps(
    sv: Server, env: seq<Turn>, generation: Int64, hash: Hash, resource: Resource, read: Option<Resource>)
    requires Versioned(sv) && hash(resource.body) != "" && Found(sv, resource, read)
    ensures PassKeeps(env, generation, hash, resource,
                      Compare(sv, env, generation, Stamp(hash, generation, resource), read))
  {
    var have := if read.Some? then read.value.annotations else map[];
    if GenerationOf(have).Some? && NeedsUpdate(generation, Stamp(hash, generation, resource).annotations, have) {
      SwapPassKeeps(sv, env, generation, hash, resource, read);
    }
  }

  /** What a pass keeps counted from a later call, it keeps counted from an earlier one. */
  lemma PassKeepsEarlier(env: seq<Turn>, generation: Int64, hash: Hash, r: Resource, p: Pass)
    requires PassKeeps(Later(env), generation, hash, r, p)
    ensures PassKeeps(env, generation, hash, r, p)
  {
    PendingNow(env, r.id);
  }

  lemma FailureKeeps(sv: Server, env: seq<Turn>, generation: Int64, hash: Hash, r: Resource, e: Error)
    requires Versioned(sv) && e != Api(Conflict) && e != Api(AlreadyExists)
    ensures PassKeeps(env, generation, hash, r,
                      Pass(sv, env, Stamp(hash, generation, r), Failed(e), None, None))
  {
  }

  lemma CreationKeeps(sv: Server, env: seq<Turn>, generation: Int64, hash: Hash, resource: Resource)
    requires Versioned(sv)
    ensures var r := Stamp(hash, generation, resource);
      PassKeeps(env, generation, hash, resource, Pass(Store(sv, r), env, r, Created, None, None))
  {
    var r := Stamp(hash, generation, resource);
    StampIsUpToDate(hash, generation, resource, Store(sv, r).objects[r.id]);
  }

  lemma CreateKeeps(sv: Server, env: seq<Turn>, generation: Int64, hash: Hash, resource: Resource)
    requires Versioned(sv) && hash(resource.body) != ""
    ensures PassKeeps(env, generation, hash, resource,
                      CreateOrCompare(sv, env, generation, Stamp(hash, generation, resource)))
  {
    var r := Stamp(hash, generation, resource);
    var now := ApplyAll(sv, Now(env).writes);
    ApplyAllKeeps(sv, Now(env).writes, r.id);
    if Now(env).fault {
      FailureKeeps(now, Later(env), generation, hash, resource, Api(Unreachable));
    } else {
      match CreateError(now, r) {
        case None => CreationKeeps(now, Later(env), generation, hash, resource);
        case Some(AlreadyExists) => CompareKeeps(now, Later(env), generation, hash, resource, None);
        case Some(e) => FailureKeeps(now, Later(env), generation, hash, resource, Api(e));
      }
    }
    PassKeepsEarlier(env, generation, hash, resource, CreateOrCompare(sv, env, generation, r));
  }

  lemma OnePassKeeps(sv: Server, env: seq<Turn>, generation: Int64, hash: Hash, resource: Resource)
    requires Versioned(sv) && hash(resource.body) != ""
    ensures PassKeeps(env, generation, hash, resource, OnePass(sv, env, generation, hash, resource))
  {
    var now := ApplyAll(sv, Now(env).writes);
    ApplyAllKeeps(sv, Now(env).writes, resource.id);
    if Now(env).fault {
      FailureKeeps(now, Later(env), generation, hash, resource, Api(Unreachable));
    } else if resource.id in now.objects {
      CompareKeeps(now, Later(env), generation, hash, resource, Some(now.objects[resource.id]));
    } else {
      CreateKeeps(now, Later(env), generation, hash, resource);
    }
    PassKeepsEarlier(env, generation, hash, resource, OnePass(sv, env, generation, hash, resource));
  }

  // ---------------------------------------------------------------------------------------
  // The whole loop.

  /** The last pass, how often it was retried, and the rendered hash computed by each pass. */
  datatype Ensured = Ensured(last: Pass, retries: nat, hashes: seq<string>)

  function Ensure(sv: Server, env: seq<Turn>, generation: Int64, hash: Hash, resource: Resource): Ensured
    requires Versioned(sv) && hash(resource.body) != ""
    decreases Pending(env, resource.id)
  {
    OnePassKeeps(sv, env, generation, hash, resource);
    var p := OnePass(sv, env, generation, hash, resource);
    if p.outcome.Retry? then
      var rest := Ensure(p.server, p.env, generation, hash, p.resource);
      Ensured(rest.last, rest.retries + 1, [hash(resource.body)] + rest.hashes)
    else Ensured(p, 0, [hash(resource.body)])
  }

  /**
    The loop ends after at most one retry per write by others to this object, computes the
    same rendered hash on every pass, and its last pass is no longer a retry.  Losing a race,
    for the update or for the creation, is never what it fails with.
   */
  lemma {:induction false} EnsureTerminates(
    sv: Server, env: seq<Turn>, generation: Int64, hash: Hash, r: Resource)
    requires Versioned(sv) && hash(r.body) != ""
    ensures var e := Ensure(sv, env, generation, hash, r);
      && e.retries + Pending(e.last.env, r.id) <= Pending(env, r.id)
      && |e.hashes| == e.retries + 1 && (forall h :: h in e.hashes ==> h == hash(r.body))
      && !e.last.outcome.Retry?
      && (e.last.outcome.Failed? ==>
            e.last.outcome.error != Api(Conflict) && e.last.outcome.error != Api(AlreadyExists))
      && Versioned(e.last.server) && e.last.resource.id == r.id && e.last.resource.body == r.body
    decreases Pending(env, r.id)
  {
    OnePassKeeps(sv, env, generation, hash, r);
    var p := OnePass(sv, env, generation, hash, r);
    if p.outcome.Retry? {
      EnsureTerminates(p.server, p.env, generation, hash, p.resource);
    }
  }

  /**
    On success the loop either wrote the desired resource, with its hash and this generation, or
    read an object with the same hashes and a generation no lower.  An update replaced exactly
    the object that was read precisely when the Get had found one.
   */
  lemma {:induction false} EnsureSucceeds(
    sv: Server, env: seq<Turn>, generation: Int64, hash: Hash, r: Resource)
    requires Versioned(sv) && hash(r.body) != ""
    ensures var p := Ensure(sv, env, generation, hash, r).last;
      && (p.outcome.Created? || p.outcome.Updated? ==>
            && r.id in p.server.objects && Carries(r, p.server.objects[r.id])
            && UpToDate(hash, generation, r, p.server.objects[r.id])
            && GenerationOf(p.server.objects[r.id].annotations) == Some(generation))
      && (p.outcome.Unchanged? ==> p.read.Some? && UpToDate(hash, generation, r, p.read.value))
      && (p.outcome.Updated? ==> p.overwrote.Some? && (p.overwrote == p.read <==> p.read.Some?))
      && (p.outcome.Created? ==> p.server.objects[r.id].body == r.body)
      && (p.outcome.Updated? && !IsService(r.id) ==> p.server.objects[r.id].body == r.body)
      && (p.outcome.Updated? ==> Ok(p.server.objects[r.id].body) == BodyForUpdate(r, p.read))
    decreases Pending(env, r.id)
  {
    OnePassKeeps(sv, env, generation, hash, r);
    var p := OnePass(sv, env, generation, hash, r);
    if p.outcome.Retry? {
      EnsureSucceeds(p.server, p.env, generation, hash, p.resource);
    }
  }

  /** An updated Service keeps the network fields of the object that was read and takes
      everything else, and the families it asks for, from the desired one. */
  lemma ServiceKeepsNetwork(sv: Server, env: seq<Turn>, generation: Int64, hash: Hash, r: Resource)
    requires Versioned(sv) && hash(r.body) != "" && IsService(r.id)
    ensures var p := Ensure(sv, env, generation, hash, r).last;
      p.outcome.Updated? && p.read.Some? ==>
        && r.id in p.server.objects && r.body.ServiceBody? && p.read.value.body.ServiceBody?
        && p.server.objects[r.id].body.ServiceBody?
        && var wrote, found, want :=
             p.server.objects[r.id].body.service, p.read.value.body.service, r.body.service;
        && wrote.clusterIP == found.clusterIP && wrote.clusterIPs == found.clusterIPs
        && wrote.ipFamilies == (if want.ipFamilies == [] then found.ipFamilies else want.ipFamilies)
        && wrote.ipFamilyPolicy == (if want.ipFamilyPolicy.None? then found.ipFamilyPolicy else want.ipFamilyPolicy)
        && wrote.rest == want.rest
  {
    EnsureSucceeds(sv, env, generation, hash, r);
  }
}
