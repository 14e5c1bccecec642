/** A Kubernetes API server as a versioned map, with other writers between a client's calls. */
module ApiServer {
  import opened Wrappers

  datatype Kind = Kind(group: string, kind: string)

  datatype Id = Id(kind: Kind, namespace: string, name: string)

  /** A Service's fields that the API server assigns, and everything else in its spec. */
  datatype ServiceSpec = ServiceSpec(
    clusterIP: string, clusterIPs: seq<string>, ipFamilies: seq<string>, ipFamilyPolicy: Option<string>,
    rest: string)

  datatype Body = ServiceBody(service: ServiceSpec) | OtherBody(content: string)

  /** Version 0 stands for an empty resourceVersion. */
  datatype Resource = Resource(id: Id, annotations: map<string, string>, version: nat, body: Body)

  datatype Server = Server(objects: map<Id, Resource>, clock: nat)

  datatype ApiError = NotFound | AlreadyExists | Conflict | VersionOnCreate | Unreachable

  /** Stored objects have the version of their last write, and the clock is past all of them. */
  ghost predicate Versioned(sv: Server) {
    forall id :: id in sv.objects ==> sv.objects[id].id == id && 0 < sv.objects[id].version <= sv.clock
  }

  function Store(sv: Server, r: Resource): Server {
    Server(sv.objects[r.id := r.(version := sv.clock + 1)], sv.clock + 1)
  }

  /** Creating refuses an object that carries a version, and one that exists. */
  function CreateError(sv: Server, r: Resource): Option<ApiError> {
    if r.version != 0 then Some(VersionOnCreate)
    else if r.id in sv.objects then Some(AlreadyExists)
    else None
  }

  /** Updating compares versions; an empty version overwrites whatever is there. */
  function UpdateError(sv: Server, r: Resource): Option<ApiError> {
    if r.id !in sv.objects then Some(NotFound)
    else if r.version != 0 && r.version != sv.objects[r.id].version then Some(Conflict)
    else None
  }

  // ---------------------------------------------------------------------------------------
  // Other writers.

  datatype Write = Put(resource: Resource) | Delete(id: Id)

  /** What happens before one API call: writes by others, and whether the call itself fails. */
  datatype Turn = Turn(writes: seq<Write>, fault: bool)

  function Target(w: Write): Id {
    match w
    case Put(r) => r.id
    case Delete(id) => id
  }

  function Apply(sv: Server, w: Write): Server {
    match w
    case Put(r) => Store(sv, r)
    case Delete(id) => Server(sv.objects - {id}, sv.clock + 1)
  }

  function ApplyAll(sv: Server, ws: seq<Write>): Server
    decreases ws
  {
    if ws == [] then sv else ApplyAll(Apply(sv, ws[0]), ws[1..])
  }

  /** When the turns are used up nobody interferes any more. */
  function Now(env: seq<Turn>): Turn {
    if env == [] then Turn([], false) else env[0]
  }

  function Later(env: seq<Turn>): seq<Turn> {
    if env == [] then [] else env[1..]
  }

  function Count(ws: seq<Write>, id: Id): nat {
    if ws == [] then 0 else (if Target(ws[0]) == id then 1 else 0) + Count(ws[1..], id)
  }

  /** Writes by others to one object that are still to come. */
  function Pending(env: seq<Turn>, id: Id): nat {
    if env == [] then 0 else Count(env[0].writes, id) + Pending(env[1..], id)
  }

  lemma PendingNow(env: seq<Turn>, id: Id)
    ensures Pending(env, id) == Count(Now(env).writes, id) + Pending(Later(env), id)
  {
  }

  /** Others keep the versions in order, and leave an object alone or give it a newer version. */
  lemma {:induction false} ApplyAllKeeps(sv: Server, ws: seq<Write>, id: Id)
    requires Versioned(sv)
    ensures var n := ApplyAll(sv, ws);
      && Versioned(n) && sv.clock <= n.clock
      && (Count(ws, id) == 0 ==> (id in n.objects <==> id in sv.objects)
                                 && (id in sv.objects ==> n.objects[id] == sv.objects[id]))
      && (id in n.objects && id in sv.objects ==>
            n.objects[id] == sv.objects[id] || n.objects[id].version > sv.objects[id].version)
      && (id in n.objects && id !in sv.objects ==> n.objects[id].version > sv.clock)
    decreases ws
  {
    if ws != [] {
      ApplyAllKeeps(Apply(sv, ws[0]), ws[1..], id);
    }
  }
}
