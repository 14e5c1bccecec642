/** The bootstrap of one replica as a method, and the signer it returns. */
module SelfSigner {
  import opened Wrappers
  import opened CaBootstrap

  class Signer {
    const ca: Authority
    var nextSerial: nat

    constructor (ca: Authority, nextSerial: nat)
      ensures this.ca == ca && this.nextSerial == nextSerial
    {
      this.ca, this.nextSerial := ca, nextSerial;
    }

    /** Hands out the next serial number and moves on. */
    method Sign() returns (serial: nat)
      modifies this
      ensures serial == old(nextSerial) && nextSerial == serial + 1
    {
      serial := nextSerial;
      nextSerial := nextSerial + 1;
    }

    /** One signer never repeats a serial number. */
    method SignMany(count: nat) returns (serials: seq<nat>)
      modifies this
      ensures |serials| == count
      ensures forall i :: 0 <= i < count ==> serials[i] == old(nextSerial) + i
      ensures forall i, k :: 0 <= i < k < count ==> serials[i] != serials[k]
      ensures forall x: nat :: x in serials <==> HandsOut(old(nextSerial), count, x)
    {
      serials := [];
      for n := 0 to count
        invariant |serials| == n && nextSerial == old(nextSerial) + n
        invariant forall i :: 0 <= i < n ==> serials[i] == old(nextSerial) + i
      {
        var serial := Sign();
        serials := serials + [serial];
      }
      forall x: nat | HandsOut(old(nextSerial), count, x) ensures x in serials {
        assert serials[x - old(nextSerial)] == x;
      }
    }
  }

  /** A signer that starts at `start` and signs `count` certificates uses this serial number. */
  predicate HandsOut(start: nat, count: nat, serial: nat) {
    start <= serial < start + count
  }

  ghost predicate Share(xs: seq<nat>, ys: seq<nat>) {
    exists x: nat :: x in xs && x in ys
  }

  /** Two signers, of one CA or not, use a serial number in common exactly when both sign
      something and neither has stopped before the other starts. */
  method SignBoth(s: Signer, t: Signer, m: nat, k: nat) returns (xs: seq<nat>, ys: seq<nat>)
    requires s != t
    modifies s, t
    ensures |xs| == m && |ys| == k
    ensures Share(xs, ys) <==>
      m > 0 && k > 0 && old(s.nextSerial) < old(t.nextSerial) + k && old(t.nextSerial) < old(s.nextSerial) + m
  {
    ghost var a, b := s.nextSerial, t.nextSerial;
    xs := s.SignMany(m);
    ys := t.SignMany(k);
    if m > 0 && k > 0 && a < b + k && b < a + m {
      var x := if a < b then b else a;
      assert HandsOut(a, m, x) && HandsOut(b, k, x);
    }
  }

  /** The API server's view of the one secret. */
  class SecretStore {
    var secret: Option<Secret>
    var clock: nat

    constructor (secret: Option<Secret>, clock: nat)
      ensures this.secret == secret && this.clock == clock
    {
      this.secret, this.clock := secret, clock;
    }

    /** The secret, once there, stays, with its data: what every step of another replica keeps. */
    twostate predicate Kept()
      reads this
    {
      && old(clock) <= clock
      && (old(secret).Some? ==> secret.Some? && secret.value.data == old(secret).value.data
                                && old(secret).value.version <= secret.value.version)
      && (old(secret) == secret
          || (secret.Some? && secret.value.version > old(clock)))
    }

    ghost predicate Valid()
      reads this
    {
      secret.Some? ==> secret.value.version <= clock
    }

    /** Other replicas take any number of steps. */
    method Yield()
      requires Valid()
      modifies this
      ensures Valid() && Kept()
    {
    }
  }

  datatype Bootstrap = Generated(signer: Signer) | Adopted(signer: Signer) | Refused | Panicked

  /**
    Reads the secret, adopting its CA, or generates a CA and tries to be the first to store
    it; a lost race starts over.  `generated` is the CA this replica would make.  A signer with
    a CA of its own starts at 1, one with an adopted CA after that CA's own serial number.
   */
  method NewSelfSignerFromSecretOrGenerate(
    store: SecretStore, codec: Codec, owner: Option<Owner>, generated: Authority, faults: seq<bool>)
    returns (r: Bootstrap)
    requires store.Valid() && RoundTrips(codec)
    modifies store
    ensures store.Valid() && store.Kept()
    ensures r.Generated? || r.Adopted? ==>
      fresh(r.signer) && store.secret.Some? && codec.decode(store.secret.value.data) == Readable(r.signer.ca)
    ensures r.Generated? ==>
      && old(store.secret).None? && r.signer.ca == generated && r.signer.nextSerial == 1
      && store.secret == Some(Secret(codec.encode(generated), OwnersFor(owner), store.clock))
    ensures r.Adopted? ==> r.signer.nextSerial == r.signer.ca.serial + 1
    ensures r.Adopted? && owner.Some? ==> HasOwner(store.secret.value.owners, owner.value)
    ensures old(store.secret).Some? && owner.None? && faults == [] ==>
      (r.Adopted? <==> codec.decode(old(store.secret).value.data).Readable?)
    ensures faults == [] && owner.None? ==> store.secret.Some?
    ensures faults == [] && owner.None? ==>
      (r.Generated? || r.Adopted? <==> codec.decode(store.secret.value.data).Readable?)
    ensures faults == [] && r.Refused? ==>
      || (store.secret.Some? && codec.decode(store.secret.value.data) == Unparsable)
      || store.clock > old(store.clock)
    ensures r.Panicked? ==> store.secret.Some? && codec.decode(store.secret.value.data) == NotPem
    decreases if store.secret.None? then 1 else 0
  {
    store.Yield();
    if |faults| > 0 && faults[0] {
      return Refused;
    }
    if store.secret.Some? {
      var caSecret := store.secret.value;
      if owner.Some? {
        var has := HasOwnerReference(caSecret.owners, owner.value);
        if !has {
          store.Yield();
          if (|faults| > 1 && faults[1]) || store.secret.None? || store.secret.value.version != caSecret.version {
            return Refused;
          }
          store.secret := Some(Secret(caSecret.data, [owner.value], store.clock + 1));
          store.clock := store.clock + 1;
          assert HasOwner([owner.value], owner.value) by {
            assert [owner.value][0].uid == owner.value.uid;
          }
        }
      }
      match codec.decode(caSecret.data) {
        case Readable(ca) =>
          var signer := new Signer(ca, ca.serial + 1);
          return Adopted(signer);
        case Unparsable =>
          return Refused;
        case NotPem =>
          return Bootstrap.Panicked;
      }
    }

    store.Yield();
    if |faults| > 1 && faults[1] {
      return Refused;
    }
    if store.secret.Some? {
      r := NewSelfSignerFromSecretOrGenerate(store, codec, owner, generated, if |faults| > 1 then faults[2..] else []);
      return;
    }
    store.secret := Some(Secret(codec.encode(generated), OwnersFor(owner), store.clock + 1));
    store.clock := store.clock + 1;
    var signer := new Signer(generated, 1);
    return Generated(signer);
  }

  /** Two replicas that adopt one stored CA sign their first certificates under it with the same
      serial number. */
  method TwoAdopters(store: SecretStore, codec: Codec, owner: Option<Owner>, generated: Authority)
    returns (first: Option<(Authority, nat)>, second: Option<(Authority, nat)>)
    requires store.Valid() && RoundTrips(codec) && store.secret.Some?
    modifies store
    ensures first.Some? && second.Some? ==>
      && first == second && first.value.1 == first.value.0.serial + 1
      && codec.decode(old(store.secret).value.data) == Readable(first.value.0)
    ensures codec.decode(old(store.secret).value.data).Readable? && owner.None? ==> first.Some? && second.Some?
  {
    first, second := None, None;
    var r := NewSelfSignerFromSecretOrGenerate(store, codec, owner, generated, []);
    var q := NewSelfSignerFromSecretOrGenerate(store, codec, owner, generated, []);
    if r.Adopted? {
      var serial := r.signer.Sign();
      first := Some((r.signer.ca, serial));
    }
    if q.Adopted? {
      var serial := q.signer.Sign();
      second := Some((q.signer.ca, serial));
    }
  }
}
