/** The OIDC authenticator object and the controller that drives it, one call at a time. */
module OidcAuthenticator {
  import opened Wrappers
  import opened OidcLifecycle
  import opened OidcLifecycleProofs
  import opened OidcConfigMap

  class Authenticator {
    const build: Builder

    var observedConfiguration: string
    var delegate: Option<nat>
    var delegateCancel: Option<nat>
    var initializationError: Option<Error>
    /** Every delegate made so far, by number. */
    var delegates: seq<Delegate>

    ghost function View(): Core
      reads this
    {
      Core(observedConfiguration, Published(delegate, delegateCancel, initializationError), delegates, [])
    }

    /** Delegate, cancel and error agree, and all delegates but the published one are finished. */
    ghost predicate Valid()
      reads this
    {
      Lifecycle(View(), None)
    }

    ghost function State(): Spec
      requires Valid()
      reads this
    {
      Spec(observedConfiguration, ExposedOf(View()), |delegates|)
    }

    constructor (build: Builder)
      ensures Valid() && State() == START && this.build == build
    {
      this.build := build;
      observedConfiguration := "";
      delegate, delegateCancel, initializationError := None, None, Some(Uninitialized);
      delegates := [];
    }

    /** Publishes the given fields and then cancels and cleans up the delegate they replace. */
    method ReplaceDelegate(next: Option<nat>, cancel: Option<nat>, error: Option<Error>)
      requires delegateCancel.Some? ==> delegateCancel.value < |delegates|
      modifies this`delegate, this`delegateCancel, this`initializationError, this`delegates
      ensures delegate == next && delegateCancel == cancel && initializationError == error
      ensures |delegates| == |old(delegates)|
      ensures forall i :: 0 <= i < |delegates| ==>
        delegates[i] == if old(delegateCancel) == Some(i)
                        then old(delegates)[i].(cancels := old(delegates)[i].cancels + 1,
                                                cleanups := old(delegates)[i].cleanups + 1)
                        else old(delegates)[i]
    {
      var oldCancel := delegateCancel;
      delegate := next;
      delegateCancel := cancel;
      initializationError := error;
      if oldCancel.Some? {
        var d := delegates[oldCancel.value];
        delegates := delegates[oldCancel.value := d.(cancels := d.cancels + 1, cleanups := d.cleanups + 1)];
      }
    }

    method ReconcileCABundle(key: string, bundle: Option<string>) returns (changed: bool, error: Option<Error>)
      requires Valid()
      modifies this
      ensures Valid() && State() == Handle(build, old(State()), Reconcile(key, bundle))
      ensures changed <==> key != old(observedConfiguration)
      ensures error == if changed && State().exposed.Down? then Some(State().exposed.error) else None
    {
      if observedConfiguration == key {
        return false, None;
      }
      observedConfiguration := key;
      ReplaceDelegate(None, None, Some(Initializing));
      forall i | 0 <= i < |delegates| ensures Accounted(View(), None, i) {
        assert Accounted(old(View()), None, i);
      }

      ghost var disabled := View();
      var context := |delegates|;
      delegates := delegates + [Delegate(key, bundle, false, 0, 0, false, false)];
      if !build(context, bundle) {
        delegates := delegates[context := delegates[context].(cancels := 1)];
        ReplaceDelegate(None, None, Some(BuildFailed(key)));
        forall i | 0 <= i < |delegates| ensures Accounted(View(), None, i) {
          assert i < context ==> Accounted(disabled, None, i);
        }
        return true, Some(BuildFailed(key));
      }
      delegates := delegates[context := delegates[context].(built := true)];
      ReplaceDelegate(Some(context), Some(context), None);
      forall i | 0 <= i < |delegates| ensures Accounted(View(), None, i) {
        assert i < context ==> Accounted(disabled, None, i);
      }
      return true, None;
    }

    method MarkUnavailable(key: string, reason: string) returns (changed: bool)
      requires Valid()
      modifies this
      ensures Valid() && State() == Handle(build, old(State()), OidcLifecycle.MarkUnavailable(key, reason))
      ensures changed <==> key != old(observedConfiguration)
    {
      if observedConfiguration == key {
        return false;
      }
      observedConfiguration := key;
      ReplaceDelegate(None, None, Some(Unavailable(reason)));
      forall i | 0 <= i < |delegates| ensures Accounted(View(), None, i) {
        assert Accounted(old(View()), None, i);
      }
      return true;
    }
  }

  class CAConfigMapController {
    const source: Source
    const authenticator: Authenticator

    constructor (source: Source, authenticator: Authenticator)
      ensures this.source == source && this.authenticator == authenticator
    {
      this.source := source;
      this.authenticator := authenticator;
    }

    /** One reconcile: only a lister error is returned to the work queue. */
    method ReconcileOnce(o: Observation) returns (ok: bool)
      requires authenticator.Valid()
      modifies authenticator
      ensures authenticator.Valid()
      ensures ok <==> o != ListerError
      ensures ok <==> RequestOf(source, o).Some?
      ensures authenticator.State() ==
        if ok then Handle(authenticator.build, old(authenticator.State()), RequestOf(source, o).value)
        else old(authenticator.State())
      ensures authenticator.observedConfiguration != old(authenticator.observedConfiguration) ==>
        Shows(authenticator.build, old(|authenticator.delegates|), o, authenticator.State().exposed)
    {
      if o != ListerError {
        OutcomeShows(source, authenticator.build, |authenticator.delegates|, o);
      }
      match o {
        case ListerError =>
          ok := false;
        case Missing =>
          var _ := authenticator.MarkUnavailable("configmap-missing", Title(source) + " is not available");
          ok := true;
        case Present(cm) =>
          var bundle := CABundle(source, cm);
          if bundle.Err? {
            var key := ConfigurationKey(source, "configmap-invalid", bundle.error);
            var _ := authenticator.MarkUnavailable(key, bundle.error);
          } else {
            var key := ConfigurationKey(source, "configmap", bundle.value);
            var _, _ := authenticator.ReconcileCABundle(key, Some(bundle.value));
          }
          ok := true;
      }
    }

    /** A whole history of reconciles leads to the state of its requests handled in order. */
    method ReconcileAll(os: seq<Observation>)
      requires authenticator.Valid() && authenticator.State() == START
      modifies authenticator
      ensures authenticator.Valid()
      ensures authenticator.State() == HandleAll(authenticator.build, Requests(source, os))
      ensures CollisionFree(source) ==> forall i :: LastSeen(os, i) ==>
        Shows(authenticator.build, LastBuild(Requests(source, os)), os[i], authenticator.State().exposed)
    {
      for n := 0 to |os|
        invariant authenticator.Valid()
        invariant authenticator.State() == HandleAll(authenticator.build, Requests(source, os[..n]))
      {
        var ok := ReconcileOnce(os[n]);
        assert os[..n + 1][..n] == os[..n];
        assert os[..n + 1][n] == os[n];
        assert Requests(source, os[..n + 1]) ==
               Requests(source, os[..n]) + (if ok then [RequestOf(source, os[n]).value] else []);
        if ok {
          HandleAllSnoc(authenticator.build, Requests(source, os[..n]), RequestOf(source, os[n]).value);
        } else {
          assert Requests(source, os[..n + 1]) == Requests(source, os[..n]);
        }
      }
      assert os[..|os|] == os;
      if CollisionFree(source) {
        ObservationDecides(source, authenticator.build, os);
      }
    }
  }
}
