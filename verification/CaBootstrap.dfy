/**
  Replicas of the manager that start at the same time and must end up with one signing CA.
  Every call to the API server is one step; any number of replicas take steps in any order.
  Deleting the secret is a step too, so that results can say what happens with and without it.
 */
module CaBootstrap {
  import opened Wrappers

  datatype Authority = Authority(cert: string, key: string, serial: nat)

  /** Reading the secret's data; without a PEM block to parse the process panics. */
  datatype Decoded = Readable(ca: Authority) | Unparsable | NotPem

  /** How an authority is written to and read from the secret's data. */
  datatype Codec = Codec(encode: Authority -> string, decode: string -> Decoded)

  ghost predicate RoundTrips(c: Codec) {
    forall ca :: c.decode(c.encode(ca)) == Readable(ca)
  }

  datatype Owner = Owner(uid: string, name: string)

  datatype Secret = Secret(data: string, owners: seq<Owner>, version: nat)

  predicate HasOwner(refs: seq<Owner>, target: Owner) {
    exists i :: 0 <= i < |refs| && refs[i].uid == target.uid
  }

  method HasOwnerReference(refs: seq<Owner>, target: Owner) returns (found: bool)
    ensures found <==> HasOwner(refs, target)
    ensures found <==> exists ref :: ref in refs && ref.uid == target.uid
  {
    for i := 0 to |refs|
      invariant forall k :: 0 <= k < i ==> refs[k].uid != target.uid
    {
      if refs[i].uid == target.uid {
        return true;
      }
    }
    return false;
  }

  function OwnersFor(owner: Option<Owner>): seq<Owner> {
    if owner.Some? then [owner.value] else []
  }

  predicate NeedsOwner(s: Secret, owner: Option<Owner>) {
    owner.Some? && !HasOwner(s.owners, owner.value)
  }

  /** Where a replica is; `depth` counts its restarts after losing the creation race. */
  datatype Pc =
    | Reading(depth: nat)
    | Adopting(secret: Secret)
    | Generating(depth: nat)
    | Creating(ca: Authority, depth: nat)
    | Done(ca: Authority)
    | Failed
    | Panicked

  datatype State = State(secret: Option<Secret>, clock: nat, replicas: map<nat, Pc>, deletions: nat)

  datatype Event =
    | Launch(replica: nat)
    | Read(replica: nat, fault: bool)
    | UpdateOwner(replica: nat, fault: bool)
    | Generate(replica: nat, ca: Authority)
    | Create(replica: nat, fault: bool)
    | Delete

  predicate Enabled(s: State, e: Event) {
    match e
    case Launch(r) => r !in s.replicas
    case Read(r, _) => r in s.replicas && s.replicas[r].Reading?
    case UpdateOwner(r, _) => r in s.replicas && s.replicas[r].Adopting?
    case Generate(r, _) => r in s.replicas && s.replicas[r].Generating?
    case Create(r, _) => r in s.replicas && s.replicas[r].Creating?
    case Delete => s.secret.Some?
  }

  function Adopt(codec: Codec, data: string): Pc {
    match codec.decode(data)
    case Readable(ca) => Done(ca)
    case Unparsable => Failed
    case NotPem => Panicked
  }

  function AfterRead(codec: Codec, owner: Option<Owner>, secret: Option<Secret>, depth: nat): Pc {
    if secret.None? then Generating(depth)
    else if NeedsOwner(secret.value, owner) then Adopting(secret.value)
    else Adopt(codec, secret.value.data)
  }

  /** `owner` is the owner reference each replica was started with, if any. */
  function Next(codec: Codec, owner: nat -> Option<Owner>, s: State, e: Event): State
    requires Enabled(s, e)
  {
    match e
    case Launch(r) => s.(replicas := s.replicas[r := Reading(0)])
    case Read(r, fault) =>
      s.(replicas := s.replicas[r :=
        if fault then Failed else AfterRead(codec, owner(r), s.secret, s.replicas[r].depth)])
    case UpdateOwner(r, fault) =>
      var copy := s.replicas[r].secret;
      if fault || s.secret.None? || s.secret.value.version != copy.version
      then s.(replicas := s.replicas[r := Failed])
      else State(Some(Secret(copy.data, OwnersFor(owner(r)), s.clock + 1)), s.clock + 1,
                 s.replicas[r := Adopt(codec, copy.data)], s.deletions)
    case Generate(r, ca) => s.(replicas := s.replicas[r := Creating(ca, s.replicas[r].depth)])
    case Create(r, fault) =>
      var ca := s.replicas[r].ca;
      if fault then s.(replicas := s.replicas[r := Failed])
      else if s.secret.Some? then s.(replicas := s.replicas[r := Reading(s.replicas[r].depth + 1)])
      else State(Some(Secret(codec.encode(ca), OwnersFor(owner(r)), s.clock + 1)), s.clock + 1,
                 s.replicas[r := Done(ca)], s.deletions)
    case Delete => s.(secret := None, deletions := s.deletions + 1)
  }

  /** A run starts with no replica, and with no secret or any secret at all. */
  ghost predicate Initial(s: State) {
    && s.replicas == map[] && s.deletions == 0
    && (s.secret.Some? ==> s.secret.value.version <= s.clock)
  }

  ghost predicate IsRun(codec: Codec, owner: nat -> Option<Owner>, run: seq<State>, events: seq<Event>) {
    && |run| == |events| + 1
    && Initial(run[0])
    && forall i :: 0 <= i < |events| ==>
         Enabled(run[i], events[i]) && run[i + 1] == Next(codec, owner, run[i], events[i])
  }

  // ---------------------------------------------------------------------------------------
  // Invariants.

  /** A copy of the secret with the current version has the current data. */
  ghost predicate CopyAgrees(s: State, copy: Secret) {
    && copy.version <= s.clock
    && (s.secret.Some? && s.secret.value.version == copy.version ==> s.secret.value.data == copy.data)
  }

  /** A replica restarts at most once, and once more for every deletion. */
  ghost predicate DepthBounded(s: State, pc: Pc) {
    && (pc.Reading? ==> pc.depth <= s.deletions + (if s.secret.Some? then 1 else 0))
    && (pc.Generating? || pc.Creating? ==> pc.depth <= s.deletions)
  }

  /** As long as nothing was deleted, a replica that has a CA has the one in the secret. */
  ghost predicate HoldsStored(codec: Codec, s: State, pc: Pc) {
    && (pc.Adopting? ==> s.secret.Some? && s.secret.value.data == pc.secret.data)
    && (pc.Done? ==> s.secret.Some? && codec.decode(s.secret.value.data) == Readable(pc.ca))
  }

  ghost predicate PcAgrees(codec: Codec, s: State, pc: Pc) {
    && (pc.Adopting? ==> CopyAgrees(s, pc.secret))
    && DepthBounded(s, pc)
    && (s.deletions == 0 ==> HoldsStored(codec, s, pc))
  }

  ghost predicate Invariant(codec: Codec, s: State) {
    && (s.secret.Some? ==> s.secret.value.version <= s.clock)
    && forall r :: r in s.replicas ==> PcAgrees(codec, s, s.replicas[r])
  }

  /** No step but a deletion takes the secret away or changes its data, and whatever it does
      to the secret shows in a newer version. */
  lemma DataIsImmutable(codec: Codec, owner: nat -> Option<Owner>, s: State, e: Event)
    requires Invariant(codec, s) && Enabled(s, e) && !e.Delete?
    ensures var n := Next(codec, owner, s, e);
      && s.clock <= n.clock
      && (s.secret.Some? ==> n.secret.Some? && n.secret.value.data == s.secret.value.data
                             && s.secret.value.version <= n.secret.value.version)
      && (n.secret == s.secret || (n.secret.Some? && n.secret.value.version > s.clock))
  {
    if e.UpdateOwner? {
      assert PcAgrees(codec, s, s.replicas[e.replica]);
    }
  }

  /** The step in which replica `r` gets to `pc`. */
  ghost predicate Becomes(codec: Codec, owner: nat -> Option<Owner>, s: State, e: Event, r: nat, pc: Pc)
    requires Enabled(s, e)
  {
    && r in Next(codec, owner, s, e).replicas && Next(codec, owner, s, e).replicas[r] == pc
    && (r in s.replicas ==> s.replicas[r] != pc)
  }

  /** A replica that finishes leaves a secret that names its owner. */
  lemma OwnerIsSet(codec: Codec, owner: nat -> Option<Owner>, s: State, e: Event, r: nat, ca: Authority)
    requires Enabled(s, e) && Becomes(codec, owner, s, e, r, Done(ca)) && owner(r).Some?
    ensures var n := Next(codec, owner, s, e);
      n.secret.Some? && HasOwner(n.secret.value.owners, owner(r).value)
  {
    var o := owner(r).value;
    assert HasOwner([o], o) by {
      assert [o][0].uid == o.uid;
    }
  }

  /** A replica fails only if a call of its own fails, the stored CA does not parse, or somebody
      else has written or deleted the secret since it read it. */
  lemma FailsOnlyIf(codec: Codec, owner: nat -> Option<Owner>, s: State, e: Event, r: nat)
    requires Enabled(s, e) && Becomes(codec, owner, s, e, r, Failed)
    ensures
      || e == Read(r, true) || e == UpdateOwner(r, true) || e == Create(r, true)
      || (e.Read? && s.secret.Some? && codec.decode(s.secret.value.data) == Unparsable)
      || (&& e == UpdateOwner(r, false) && r in s.replicas && s.replicas[r].Adopting?
          && (|| s.secret.None?
              || s.secret.value.version != s.replicas[r].secret.version
              || codec.decode(s.replicas[r].secret.data) == Unparsable))
  {
  }

  lemma InvariantByStep(codec: Codec, owner: nat -> Option<Owner>, s: State, e: Event)
    requires RoundTrips(codec) && Invariant(codec, s) && Enabled(s, e)
    ensures Invariant(codec, Next(codec, owner, s, e))
  {
    var n := Next(codec, owner, s, e);
    if !e.Delete? {
      DataIsImmutable(codec, owner, s, e);
    }
    forall r | r in n.replicas ensures PcAgrees(codec, n, n.replicas[r]) {
      assert r in s.replicas ==> PcAgrees(codec, s, s.replicas[r]);
    }
  }

  lemma {:induction false} EveryRun(
    codec: Codec, owner: nat -> Option<Owner>, run: seq<State>, events: seq<Event>, n: nat)
    requires RoundTrips(codec) && IsRun(codec, owner, run, events) && n < |run|
    ensures Invariant(codec, run[n])
  {
    if n > 0 {
      EveryRun(codec, owner, run, events, n - 1);
      InvariantByStep(codec, owner, run[n - 1], events[n - 1]);
    }
  }

  // ---------------------------------------------------------------------------------------
  // Main results.

  lemma {:induction false} NoDeletions(
    codec: Codec, owner: nat -> Option<Owner>, run: seq<State>, events: seq<Event>, n: nat)
    requires IsRun(codec, owner, run, events) && n < |run|
    requires forall i :: 0 <= i < n ==> !events[i].Delete?
    ensures run[n].deletions == 0
  {
    if n > 0 {
      NoDeletions(codec, owner, run, events, n - 1);
    }
  }

  /**
    If nobody deletes the secret, all replicas that finished hold the CA stored in it, however
    many there are and however they interleave; and no replica lost the creation race twice.
   */
  lemma ReplicasAgree(
    codec: Codec, owner: nat -> Option<Owner>, run: seq<State>, events: seq<Event>, n: nat, p: nat, q: nat)
    requires RoundTrips(codec) && IsRun(codec, owner, run, events) && n < |run|
    requires forall i :: 0 <= i < n ==> !events[i].Delete?
    requires p in run[n].replicas && q in run[n].replicas
    ensures run[n].replicas[p].Done? ==>
      run[n].secret.Some? && codec.decode(run[n].secret.value.data) == Readable(run[n].replicas[p].ca)
    ensures run[n].replicas[p].Done? && run[n].replicas[q].Done? ==> run[n].replicas[p].ca == run[n].replicas[q].ca
    ensures run[n].replicas[p].Reading? ==> run[n].replicas[p].depth <= 1
    ensures run[n].replicas[p].Generating? || run[n].replicas[p].Creating? ==> run[n].replicas[p].depth == 0
  {
    EveryRun(codec, owner, run, events, n);
    NoDeletions(codec, owner, run, events, n);
    assert PcAgrees(codec, run[n], run[n].replicas[p]);
    assert PcAgrees(codec, run[n], run[n].replicas[q]);
  }

  /** With deletions, a replica restarts at most once more than the secret was deleted. */
  lemma RestartsBounded(
    codec: Codec, owner: nat -> Option<Owner>, run: seq<State>, events: seq<Event>, n: nat, p: nat)
    requires RoundTrips(codec) && IsRun(codec, owner, run, events) && n < |run| && p in run[n].replicas
    ensures run[n].replicas[p].Reading? ==> run[n].replicas[p].depth <= run[n].deletions + 1
  {
    EveryRun(codec, owner, run, events, n);
    assert PcAgrees(codec, run[n], run[n].replicas[p]);
  }

  /** Once the secret exists its data stays what it is, whoever sets owner references. */
  lemma {:induction false} FirstWriterWins(
    codec: Codec, owner: nat -> Option<Owner>, run: seq<State>, events: seq<Event>, m: nat, n: nat)
    requires RoundTrips(codec) && IsRun(codec, owner, run, events) && m <= n < |run|
    requires run[m].secret.Some? && forall i :: m <= i < n ==> !events[i].Delete?
    ensures run[n].secret.Some? && run[n].secret.value.data == run[m].secret.value.data
  {
    if m < n {
      FirstWriterWins(codec, owner, run, events, m, n - 1);
      EveryRun(codec, owner, run, events, n - 1);
      DataIsImmutable(codec, owner, run[n - 1], events[n - 1]);
    }
  }

  ghost predicate Reachable(codec: Codec, owner: nat -> Option<Owner>, s: State) {
    exists run, events :: IsRun(codec, owner, run, events) && run[|events|] == s
  }

  lemma ReachStart(codec: Codec, owner: nat -> Option<Owner>, s: State)
    requires Initial(s)
    ensures Reachable(codec, owner, s)
  {
    assert IsRun(codec, owner, [s], []);
  }

  lemma ReachStep(codec: Codec, owner: nat -> Option<Owner>, s: State, e: Event, n: State)
    requires Reachable(codec, owner, s) && Enabled(s, e) && n == Next(codec, owner, s, e)
    ensures Reachable(codec, owner, n)
  {
    var run, events :| IsRun(codec, owner, run, events) && run[|events|] == s;
    assert IsRun(codec, owner, run + [n], events + [e]);
  }

  /** One replica moves on by itself. */
  lemma ReachMove(codec: Codec, owner: nat -> Option<Owner>, s: State, r: nat, pc: Pc, e: Event, after: Pc)
    requires var from := s.(replicas := s.replicas[r := pc]);
      && Reachable(codec, owner, from) && Enabled(from, e)
      && Next(codec, owner, from, e) == from.(replicas := from.replicas[r := after])
    ensures Reachable(codec, owner, s.(replicas := s.replicas[r := after]))
  {
    assert s.replicas[r := pc][r := after] == s.replicas[r := after];
    ReachStep(codec, owner, s.(replicas := s.replicas[r := pc]), e, s.(replicas := s.replicas[r := after]));
  }

  /** With no secret, a replica running alone stores its own CA. */
  lemma ReachAlone(codec: Codec, owner: nat -> Option<Owner>, s: State, r: nat, ca: Authority)
    requires Reachable(codec, owner, s) && s.secret.None? && r !in s.replicas
    ensures Reachable(codec, owner,
                      State(Some(Secret(codec.encode(ca), OwnersFor(owner(r)), s.clock + 1)), s.clock + 1,
                            s.replicas[r := Done(ca)], s.deletions))
  {
    ReachStep(codec, owner, s, Launch(r), s.(replicas := s.replicas[r := Reading(0)]));
    ReachMove(codec, owner, s, r, Reading(0), Read(r, false), Generating(0));
    ReachMove(codec, owner, s, r, Generating(0), Generate(r, ca), Creating(ca, 0));
    ReachStored(codec, owner, s, r, ca);
  }

  lemma ReachStored(codec: Codec, owner: nat -> Option<Owner>, s: State, r: nat, ca: Authority)
    requires Reachable(codec, owner, s.(replicas := s.replicas[r := Creating(ca, 0)]))
    requires s.secret.None?
    ensures Reachable(codec, owner,
                      State(Some(Secret(codec.encode(ca), OwnersFor(owner(r)), s.clock + 1)), s.clock + 1,
                            s.replicas[r := Done(ca)], s.deletions))
  {
    var made := s.(replicas := s.replicas[r := Creating(ca, 0)]);
    assert made.replicas[r := Done(ca)] == s.replicas[r := Done(ca)];
    ReachStep(codec, owner, made, Create(r, false), Next(codec, owner, made, Create(r, false)));
  }

  /** All replicas that finished hold the same CA. */
  ghost predicate Agreed(s: State) {
    forall p, q :: p in s.replicas && q in s.replicas && s.replicas[p].Done? && s.replicas[q].Done? ==>
      s.replicas[p].ca == s.replicas[q].ca
  }

  /** One deletion is enough to break the agreement. */
  lemma DeletionBreaksAgreement(codec: Codec, owner: nat -> Option<Owner>, a: Authority, b: Authority)
    returns (s: State)
    requires a != b
    ensures Reachable(codec, owner, s) && s.deletions == 1 && s.secret.Some?
    ensures s.replicas == map[0 := Done(a), 1 := Done(b)]
  {
    var empty := State(None, 0, map[], 0);
    ReachStart(codec, owner, empty);
    ReachAlone(codec, owner, empty, 0, a);
    var one := State(Some(Secret(codec.encode(a), OwnersFor(owner(0)), 1)), 1, map[0 := Done(a)], 0);
    var deleted := State(None, 1, map[0 := Done(a)], 1);
    ReachStep(codec, owner, one, Delete, deleted);
    ReachAlone(codec, owner, deleted, 1, b);
    s := State(Some(Secret(codec.encode(b), OwnersFor(owner(1)), 2)), 2, map[0 := Done(a), 1 := Done(b)], 1);
  }

  /** And no further deletion repairs it. */
  lemma {:induction false} DisagreementStays(
    codec: Codec, owner: nat -> Option<Owner>, a: Authority, b: Authority, k: nat) returns (s: State)
    requires a != b && k > 0
    ensures Reachable(codec, owner, s) && s.deletions == k && s.secret.Some?
    ensures 0 in s.replicas && 1 in s.replicas && s.replicas[0] == Done(a) && s.replicas[1] == Done(b)
    ensures forall r :: r in s.replicas ==> r <= k
  {
    if k == 1 {
      s := DeletionBreaksAgreement(codec, owner, a, b);
    } else {
      var t := DisagreementStays(codec, owner, a, b, k - 1);
      var deleted := t.(secret := None, deletions := k);
      ReachStep(codec, owner, t, Delete, deleted);
      ReachAlone(codec, owner, deleted, k, a);
      s := State(Some(Secret(codec.encode(a), OwnersFor(owner(k)), t.clock + 1)), t.clock + 1,
                 t.replicas[k := Done(a)], k);
    }
  }

  lemma {:induction false} CountsDeletions(
    codec: Codec, owner: nat -> Option<Owner>, run: seq<State>, events: seq<Event>, n: nat)
    requires IsRun(codec, owner, run, events) && n < |run|
    ensures run[n].deletions == 0 ==> forall i :: 0 <= i < n ==> !events[i].Delete?
  {
    if n > 0 {
      CountsDeletions(codec, owner, run, events, n - 1);
    }
  }

  /** Replicas are sure to agree if and only if the secret was never deleted, whatever owner
      references they set. */
  lemma AgreementIff(codec: Codec, owner: nat -> Option<Owner>, k: nat)
    requires RoundTrips(codec)
    ensures (forall s :: Reachable(codec, owner, s) && s.deletions == k ==> Agreed(s)) <==> k == 0
  {
    if k == 0 {
      forall s | Reachable(codec, owner, s) && s.deletions == 0 ensures Agreed(s) {
        var run, events :| IsRun(codec, owner, run, events) && run[|events|] == s;
        CountsDeletions(codec, owner, run, events, |events|);
        forall p, q | p in s.replicas && q in s.replicas && s.replicas[p].Done? && s.replicas[q].Done?
          ensures s.replicas[p].ca == s.replicas[q].ca
        {
          ReplicasAgree(codec, owner, run, events, |events|, p, q);
        }
      }
    } else {
      var s := DisagreementStays(codec, owner, Authority("a", "", 0), Authority("b", "", 0), k);
      assert s.replicas[0].ca != s.replicas[1].ca;
    }
  }
}
