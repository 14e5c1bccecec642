/**
  The reconciler of the OIDC CA ConfigMap: what each observation of the ConfigMap asks of the
  authenticator, and what a whole history of observations leads to.
 */
module OidcConfigMap {
  import opened Wrappers
  import opened OidcLifecycle
  import opened OidcLifecycleProofs

  datatype ConfigMap = ConfigMap(data: map<string, string>, binaryData: map<string, string>)

  datatype Observation = ListerError | Missing | Present(configMap: ConfigMap)

  /** The one ConfigMap the controller watches, with the digest used in configuration keys. */
  datatype Source = Source(namespace: string, name: string, digest: string -> string)

  const CA_KEY := "ca.crt"

  function Title(src: Source): string {
    "OIDC CA ConfigMap " + src.namespace + "/" + src.name
  }

  /** Text data wins over binary data; an absent or empty entry is an error. */
  function CABundle(src: Source, cm: ConfigMap): Result<string, string> {
    var entry :=
      if CA_KEY in cm.data then Some(cm.data[CA_KEY])
      else if CA_KEY in cm.binaryData then Some(cm.binaryData[CA_KEY])
      else None;
    if entry.None? then Err(Title(src) + " does not contain ca.crt")
    else if entry.value == "" then Err(Title(src) + " has an empty ca.crt entry")
    else Ok(entry.value)
  }

  function ConfigurationKey(src: Source, kind: string, content: string): string {
    kind + ":" + src.digest(content)
  }

  /** What one reconcile asks of the authenticator; nothing when the lister failed. */
  function RequestOf(src: Source, o: Observation): Option<Request> {
    match o
    case ListerError => None
    case Missing => Some(MarkUnavailable("configmap-missing", Title(src) + " is not available"))
    case Present(cm) =>
      match CABundle(src, cm) {
        case Err(e) => Some(MarkUnavailable(ConfigurationKey(src, "configmap-invalid", e), e))
        case Ok(b) => Some(Reconcile(ConfigurationKey(src, "configmap", b), Some(b)))
      }
  }

  ghost predicate CollisionFree(src: Source) {
    forall x, y :: src.digest(x) == src.digest(y) ==> x == y
  }

  /** Building the same bundle always ends the same way. */
  ghost predicate Deterministic(build: Builder) {
    forall n: nat, m: nat, b :: build(n, b) == build(m, b)
  }

  lemma PrefixedEqual(p: string, x: string, y: string)
    requires p + x == p + y
    ensures x == y
  {
    assert (p + x)[|p|..] == x;
    assert (p + y)[|p|..] == y;
  }

  /** Observations with the same configuration key ask for exactly the same thing. */
  lemma KeysTellRequestsApart(src: Source, o: Observation, p: Observation)
    requires CollisionFree(src)
    requires RequestOf(src, o).Some? && RequestOf(src, p).Some?
    requires RequestOf(src, o).value.key == RequestOf(src, p).value.key
    ensures RequestOf(src, o) == RequestOf(src, p)
  {
    var r, q := RequestOf(src, o).value, RequestOf(src, p).value;
    KeyShape(src, o);
    KeyShape(src, p);
    if o.Present? && p.Present? {
      var b, c := CABundle(src, o.configMap), CABundle(src, p.configMap);
      if b.Ok? && c.Ok? {
        assert r.key == "configmap:" + src.digest(b.value) && q.key == "configmap:" + src.digest(c.value);
        PrefixedEqual("configmap:", src.digest(b.value), src.digest(c.value));
      } else if b.Err? && c.Err? {
        assert r.key == "configmap-invalid:" + src.digest(b.error);
        assert q.key == "configmap-invalid:" + src.digest(c.error);
        PrefixedEqual("configmap-invalid:", src.digest(b.error), src.digest(c.error));
      }
    }
  }

  /** The tenth and eleventh characters of a key tell the three kinds apart. */
  lemma KeyShape(src: Source, o: Observation)
    requires RequestOf(src, o).Some?
    ensures var key := RequestOf(src, o).value.key;
      && |key| >= 10
      && (o.Missing? ==> |key| >= 11 && key[9] == '-' && key[10] == 'm')
      && (o.Present? && CABundle(src, o.configMap).Err? ==> |key| >= 11 && key[9] == '-' && key[10] == 'i')
      && (o.Present? && CABundle(src, o.configMap).Ok? ==> key[9] == ':')
  {
    var key := RequestOf(src, o).value.key;
    if o.Present? {
      var b := CABundle(src, o.configMap);
      if b.Ok? {
        assert key == "configmap:" + src.digest(b.value);
      } else {
        assert key == "configmap-invalid:" + src.digest(b.error);
      }
    }
  }

  // ---------------------------------------------------------------------------------------
  // Histories.

  ghost predicate FromSource(src: Source, r: Request) {
    exists o :: RequestOf(src, o) == Some(r)
  }

  /** What a request leads to when its bundle is the n-th to be built. */
  function Outcome(build: Builder, n: nat, r: Request): Exposed {
    match r
    case MarkUnavailable(_, reason) => Down(Unavailable(reason))
    case Reconcile(key, bundle) => if build(n, bundle) then Up(key, bundle) else Down(BuildFailed(key))
  }

  /** The state that one request alone calls for, whatever came before. */
  function Desired(build: Builder, r: Request): Exposed {
    Outcome(build, 0, r)
  }

  /** How often the configuration changed into a bundle. */
  function BundleChanges(log: seq<Request>): nat {
    if log == [] then 0
    else
      var last := log[|log| - 1];
      BundleChanges(log[..|log| - 1])
      + (if last.Reconcile? && (|log| == 1 || log[|log| - 2].key != last.key) then 1 else 0)
  }

  /**
    For every builder: delegates are built exactly when the configuration changes into a bundle,
    and the state is the outcome of the last of these constructions for the last request.  A
    construction that failed is therefore never tried again until the configuration changes.
   */
  lemma {:induction false} HistoryIsItsLastBuild(src: Source, build: Builder, log: seq<Request>)
    requires CollisionFree(src)
    requires forall i :: 0 <= i < |log| ==> FromSource(src, log[i])
    ensures HandleAll(build, log).builds == BundleChanges(log)
    ensures log == [] ==> HandleAll(build, log).exposed == Down(Uninitialized)
    ensures log != [] && log[|log| - 1].Reconcile? ==> BundleChanges(log) > 0
    ensures log != [] ==> HandleAll(build, log).observed == log[|log| - 1].key
    ensures log != [] ==>
      HandleAll(build, log).exposed == Outcome(build, LastBuild(log), log[|log| - 1])
  {
    if log != [] {
      var earlier, last := log[..|log| - 1], log[|log| - 1];
      HistoryIsItsLastBuild(src, build, earlier);
      KeyIsNotEmpty(src, last);
      if earlier != [] && earlier[|earlier| - 1].key == last.key {
        SameKeySameRequest(src, earlier[|earlier| - 1], last);
      }
    }
  }

  lemma KeyIsNotEmpty(src: Source, r: Request)
    requires FromSource(src, r)
    ensures r.key != ""
  {
    var o :| RequestOf(src, o) == Some(r);
    KeyShape(src, o);
  }

  lemma SameKeySameRequest(src: Source, r: Request, q: Request)
    requires CollisionFree(src) && FromSource(src, r) && FromSource(src, q) && r.key == q.key
    ensures r == q
  {
    var o :| RequestOf(src, o) == Some(r);
    var p :| RequestOf(src, p) == Some(q);
    KeysTellRequestsApart(src, o, p);
  }

  /** The number of the last construction, counted from 0. */
  function LastBuild(log: seq<Request>): nat {
    if BundleChanges(log) == 0 then 0 else BundleChanges(log) - 1
  }

  /** With a deterministic builder the state after a history depends on its last request alone. */
  lemma HistoryIsItsLastRequest(src: Source, build: Builder, log: seq<Request>)
    requires CollisionFree(src) && Deterministic(build)
    requires log != [] && forall i :: 0 <= i < |log| ==> FromSource(src, log[i])
    ensures HandleAll(build, log).observed == log[|log| - 1].key
    ensures HandleAll(build, log).exposed == Desired(build, log[|log| - 1])
  {
    HistoryIsItsLastBuild(src, build, log);
  }

  /** The requests made by a sequence of reconciles. */
  function Requests(src: Source, os: seq<Observation>): seq<Request> {
    if os == [] then []
    else
      var r := RequestOf(src, os[|os| - 1]);
      Requests(src, os[..|os| - 1]) + (if r.Some? then [r.value] else [])
  }

  lemma {:induction false} LastRequest(src: Source, os: seq<Observation>, i: nat)
    requires i < |os| && os[i] != ListerError
    requires forall j :: i < j < |os| ==> os[j] == ListerError
    ensures Requests(src, os) != []
    ensures Some(Requests(src, os)[|Requests(src, os)| - 1]) == RequestOf(src, os[i])
  {
    if i < |os| - 1 {
      LastRequest(src, os[..|os| - 1], i);
    }
  }

  lemma {:induction false} RequestsFromSource(src: Source, os: seq<Observation>)
    ensures forall r :: r in Requests(src, os) ==> FromSource(src, r)
  {
    if os != [] {
      RequestsFromSource(src, os[..|os| - 1]);
      assert RequestOf(src, os[|os| - 1]) == RequestOf(src, os[|os| - 1]);
    }
  }

  /** After any observations, the exposed state is decided by the last one that was not a
      lister error. */
  lemma StateFollowsLastObservation(src: Source, build: Builder, os: seq<Observation>, i: nat)
    requires CollisionFree(src) && Deterministic(build)
    requires i < |os| && os[i] != ListerError && forall j :: i < j < |os| ==> os[j] == ListerError
    ensures HandleAll(build, Requests(src, os)).exposed == Desired(build, RequestOf(src, os[i]).value)
    ensures HandleAll(build, Requests(src, os)).builds == BundleChanges(Requests(src, os))
  {
    RequestsFromSource(src, os);
    LastRequest(src, os, i);
    HistoryIsItsLastBuild(src, build, Requests(src, os));
    HistoryIsItsLastRequest(src, build, Requests(src, os));
  }

  // ---------------------------------------------------------------------------------------
  // The state in terms of what was observed.

  /** A bundle is exposed if it can be built, by the n-th construction, and nothing otherwise. */
  ghost predicate ShowsBundle(build: Builder, n: nat, bundle: string, e: Exposed) {
    if build(n, Some(bundle)) then e.Up? && e.bundle == Some(bundle) else e.Down? && e.error.BuildFailed?
  }

  /**
    What an observation has to lead to.  The text entry counts if there is one, else the binary
    one; it has to be non-empty.  Without a bundle the authenticator is unavailable.
   */
  ghost predicate Shows(build: Builder, n: nat, o: Observation, e: Exposed) {
    match o
    case ListerError => true
    case Missing => e.Down? && e.error.Unavailable?
    case Present(cm) =>
      && ("ca.crt" in cm.data && cm.data["ca.crt"] != "" ==> ShowsBundle(build, n, cm.data["ca.crt"], e))
      && ("ca.crt" !in cm.data && "ca.crt" in cm.binaryData && cm.binaryData["ca.crt"] != "" ==>
            ShowsBundle(build, n, cm.binaryData["ca.crt"], e))
      && ("ca.crt" in cm.data && cm.data["ca.crt"] == "" ==> e.Down? && e.error.Unavailable?)
      && ("ca.crt" !in cm.data && ("ca.crt" !in cm.binaryData || cm.binaryData["ca.crt"] == "") ==>
            e.Down? && e.error.Unavailable?)
  }

  lemma OutcomeShows(src: Source, build: Builder, n: nat, o: Observation)
    requires RequestOf(src, o).Some?
    ensures Shows(build, n, o, Outcome(build, n, RequestOf(src, o).value))
    ensures Outcome(build, n, RequestOf(src, o).value).Up? ==>
      Outcome(build, n, RequestOf(src, o).value).bundle.Some?
  {
  }

  /** For every builder and every history, what is exposed is what the last observation other than
      a lister error has to lead to; without any such observation it is nothing. */
  lemma ObservationDecides(src: Source, build: Builder, os: seq<Observation>)
    requires CollisionFree(src)
    ensures var log := Requests(src, os);
      && (forall i :: LastSeen(os, i) ==> Shows(build, LastBuild(log), os[i], HandleAll(build, log).exposed))
      && ((forall i :: 0 <= i < |os| ==> os[i] == ListerError) ==>
            HandleAll(build, log).exposed == Down(Uninitialized))
  {
    var log := Requests(src, os);
    RequestsFromSource(src, os);
    HistoryIsItsLastBuild(src, build, log);
    forall i | LastSeen(os, i) ensures Shows(build, LastBuild(log), os[i], HandleAll(build, log).exposed) {
      LastRequest(src, os, i);
      OutcomeShows(src, build, LastBuild(log), os[i]);
    }
    if forall i :: 0 <= i < |os| ==> os[i] == ListerError {
      NoRequests(src, os);
    }
  }

  ghost predicate LastSeen(os: seq<Observation>, i: int) {
    0 <= i < |os| && os[i] != ListerError && forall j :: i < j < |os| ==> os[j] == ListerError
  }

  lemma {:induction false} NoRequests(src: Source, os: seq<Observation>)
    requires forall i :: 0 <= i < |os| ==> os[i] == ListerError
    ensures Requests(src, os) == []
  {
    if os != [] {
      NoRequests(src, os[..|os| - 1]);
    }
  }

  /** In no history are the host's root CAs trusted in place of the ConfigMap. */
  lemma NeverHostRoots(src: Source, build: Builder, os: seq<Observation>)
    requires CollisionFree(src)
    ensures var e := HandleAll(build, Requests(src, os)).exposed; e.Up? ==> e.bundle.Some?
  {
    var log := Requests(src, os);
    RequestsFromSource(src, os);
    HistoryIsItsLastBuild(src, build, log);
    if log != [] {
      assert FromSource(src, log[|log| - 1]);
      var o :| RequestOf(src, o) == Some(log[|log| - 1]);
      OutcomeShows(src, build, LastBuild(log), o);
    }
  }

  /** Seeing a configuration again changes nothing, even when its first construction failed and
      another would succeed. */
  lemma RepeatsAreIgnored(build: Builder, log: seq<Request>, r: Request)
    ensures HandleAll(build, log + [r] + [r]) == HandleAll(build, log + [r])
  {
    HandleAllSnoc(build, log, r);
    HandleAllSnoc(build, log + [r], r);
  }

  lemma TransientFailureSticks()
    ensures exists build: Builder, r: Request :: r.Reconcile? && build(1, r.bundle)
              && HandleAll(build, [r, r]).exposed == Down(BuildFailed(r.key))
  {
    var build: Builder := (n: nat, b: Option<string>) => n > 0;
    var r := Reconcile("configmap:0", Some("ca"));
    RepeatsAreIgnored(build, [], r);
    assert [] + [r] + [r] == [r, r] && [] + [r] == [r];
    assert HandleAll(build, [r]) == Handle(build, START, r);
  }

  // ---------------------------------------------------------------------------------------
  // The same for concurrent reconcilers.

  ghost predicate AllFromSource(src: Source, s: State) {
    && (forall t :: t in s.waiting ==> FromSource(src, s.waiting[t]))
    && (s.holder.Some? ==> FromSource(src, s.holder.value.1.request))
    && (forall i :: 0 <= i < |s.core.log| ==> FromSource(src, s.core.log[i]))
  }

  lemma FromSourceByStep(src: Source, build: Builder, storeFirst: bool, s: State, e: Event)
    requires AllFromSource(src, s) && Enabled(s, e, storeFirst)
    requires e.Call? ==> FromSource(src, e.request)
    ensures AllFromSource(src, Next(build, s, e, storeFirst))
  {
    if e.Continue? {
      AdvanceKeepsRequest(build, s.core, s.holder.value.1);
    }
  }

  lemma AdvanceKeepsRequest(build: Builder, c: Core, pc: Pc)
    requires InRange(c, pc) && !pc.Unlocking?
    ensures Advance(build, c, pc).pc.request == pc.request && Advance(build, c, pc).core.log == c.log
  {
  }

  lemma {:induction false} RunFromSource(
    src: Source, build: Builder, storeFirst: bool, run: seq<State>, events: seq<Event>, n: nat)
    requires IsRun(build, storeFirst, run, events) && n < |run|
    requires forall i :: 0 <= i < |events| && events[i].Call? ==> FromSource(src, events[i].request)
    ensures AllFromSource(src, run[n])
  {
    if n > 0 {
      RunFromSource(src, build, storeFirst, run, events, n - 1);
      FromSourceByStep(src, build, storeFirst, run[n - 1], events[n - 1]);
    }
  }

  /**
    Any number of concurrent reconciles of one ConfigMap: whenever reconcileMu is free and some
    reconcile has finished, what is exposed is what the last one to hold reconcileMu observed,
    and the number of delegates built is the number of changes into a bundle.
   */
  lemma ConcurrentStateFollowsLastRequest(
    src: Source, build: Builder, storeFirst: bool, run: seq<State>, events: seq<Event>, n: nat)
    requires CollisionFree(src)
    requires IsRun(build, storeFirst, run, events) && n < |run| && run[n].holder.None? && run[n].core.log != []
    requires forall i :: 0 <= i < |events| && events[i].Call? ==> FromSource(src, events[i].request)
    ensures var c := run[n].core;
      && HolderAgrees(c, None)
      && ExposedOf(c) == Outcome(build, LastBuild(c.log), c.log[|c.log| - 1])
      && (Deterministic(build) ==> ExposedOf(c) == Desired(build, c.log[|c.log| - 1]))
      && (exists o :: RequestOf(src, o) == Some(c.log[|c.log| - 1])
            && Shows(build, LastBuild(c.log), o, ExposedOf(c)))
      && c.observed == c.log[|c.log| - 1].key
      && |c.delegates| == BundleChanges(c.log)
  {
    RunFromSource(src, build, storeFirst, run, events, n);
    SerializesReconciles(build, storeFirst, run, events, n);
    var log := run[n].core.log;
    HistoryIsItsLastBuild(src, build, log);
    assert FromSource(src, log[|log| - 1]);
    var o :| RequestOf(src, o) == Some(log[|log| - 1]);
    OutcomeShows(src, build, LastBuild(log), o);
  }
}
