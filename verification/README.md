# Verified model of the cluster proxy's protocols

The cluster proxy lets clients of a hub cluster reach the API servers and services of managed
clusters.  Most of it is plumbing; seven parts of it are small protocols whose promises are
about every interleaving or every history.  This project models those seven and proves the
promises.

| protocol | modules |
|---|---|
| The user server's pool of per-cluster transports, with double-checked locking | `PoolSections`, `TransportPoolModel`, `TransportPoolProofs`, `TransportPoolHistory`, `TransportPool` |
| The OIDC authenticator, whose delegate is replaced while requests use it | `OidcLifecycle`, `OidcLifecycleProofs`, `OidcConfigMap`, `OidcAuthenticator`, `OidcIdentity` |
| The manager's apply loop: get, create or compare-and-swap, retry on conflict | `Decimal`, `ApiServer`, `ApplyLoop`, `Deployment`, `Reconciler` |
| Manager replicas agreeing on one signing CA | `CaBootstrap`, `SelfSigner` |
| The service proxy's authentication chain and identity rewriting | `AuthChain` (and `OidcIdentity`) |
| Request routing from hub to agent, the exposed-services allowlist and the hub's admission sequence | `Strings`, `Routing`, `Allowlist`, `UserServerModel`, `UserServer` |
| Graceful drain of the HTTP servers | `Drain` |

Each protocol with concurrency has a transition system whose steps are the sections between
two points where another goroutine, replica or client can act; a run is any sequence of steps
from the initial state, with any number of participants, and the theorems are about every
state of every run.  Beside it, the objects the code updates in place are classes whose
methods are proved against the functions the transition system is made of.

## What is assumed

What lies outside the model is a parameter, and each assumption is a hypothesis of the lemmas
that need it.

- The digest in configuration keys has no collisions (`CollisionFree`), and building a delegate
  from one bundle always ends the same way (`Deterministic`).  `TransientFailureSticks` says what
  happens without the second.
- An authority written to the secret reads back as itself (`RoundTrips`).
- The rendered hash is never empty.
- The API server stores an object under a new version on every write, refuses a Create that
  carries a version, and takes an Update without a version as unconditional.  Other clients are a
  finite list of turns, one before each call, each with any writes and possibly a failure of the
  call itself; when the list is used up nobody interferes.  A call that fails has not taken effect.
- The YAML decoder, the URL parser, the tunnel dialer, the token file and every provider's answer
  to a token are parameters.
- For the second half of `ValidTokenRejectedIff`, keys that a verification needs are missing only for
  delegates whose context has been cancelled (`KeysFailOnlyCancelled`).
- For `NamedPortsAreRefused`, the URL parser accepts the address of a host of plain names exactly
  when its port is a number (`PortsAreNumbers`).
- In the drain, time passes only while the main goroutine is blocked.
- Go's `EqualFold` and `ToLower` are modelled where one side is ASCII.

## What the proofs found

Where a property one might expect is not one the code has, the project says exactly when it holds.

- An update that follows a lost Create carries no version and overwrites an object nobody read:
  `BlindUpdateIff` says exactly when, for every behaviour of other clients; an update replaces exactly
  what was read if and only if the Get found the object (`EnsureSucceeds`).
- After a conflict, an object deleted meanwhile is created again if and only if it is a Service;
  any other kind still carries the old version and the Create is refused:
  `RecreateAfterConflictIffService`.
- The hub accepts service URIs whose headers the agent refuses: exactly those with an empty port
  or namespace, or an address that does not parse (`AgentRefusesIff`).  For plain names the last
  means a named port (`NamedPortsAreRefused`), although the documentation of the URI allows one.
- The kind of a request is read from the whole URI, query included: `QueryChangesTypeIff` says
  exactly which queries change it.  One without a slash never does (`PlainQueryIsIgnored`).
- Membership is not held until a request is sent.  A pooled transport, cached or new, is handed out
  for members only (`PooledWhileMember`), and a tunnel for an upgrade request also after its cluster
  was removed (`HandedOutWithoutMembershipIff`); but every request, upgrade or not, can be sent after
  its cluster has left (`LeavesWithoutMembershipIff`), and is exactly when the cluster was evicted
  after the request's last membership section and not allowed since (`SentWithoutMembershipIff`).
- The allowlist is checked once, so a request can be sent after its entry has left the list
  (`SentAfterBothLeft`); `SentUnlistedIff` says exactly when.
- A caller of the pool can hold a closed transport, exactly from the close step of an eviction after
  its call (`ObtainedIsClosedIff`, `ClosedAfterEviction`).
- A construction of an OIDC delegate that failed is not tried again until the configuration
  changes: the state is always the outcome of the last construction (`HistoryIsItsLastBuild`), and
  `TransientFailureSticks` is a case where another one would have succeeded.
- A request that took its snapshot before a replacement can go on with a cancelled delegate
  (`SnapshotMayOutliveDelegate`); it does so exactly from the cancelling step of the reconcile that
  replaced its delegate (`SnapshotIsCancelledIff`).
- A valid token can be rejected: verification fetches keys that are not cached with the delegate's
  own context, and after a healthy check its failure counts as the token's
  (`ValidTokenMayBeRejected`).  It happens exactly when the delegate was seen healthy and a key is
  missing, and, as far as keys are missing only for cancelled delegates, only after a reconcile has
  replaced the request's delegate (`ValidTokenRejectedIff`).
- Replicas are sure to hold one CA if and only if the secret was never deleted: `AgreementIff`; one
  deletion already lets two replicas end with any two CAs (`DeletionBreaksAgreement`).
- Serial numbers are unique per signer only (`SignMany`): two replicas that adopt one CA sign their
  first certificates with the same number (`TwoAdopters`), and `SignBoth` says exactly when two
  signers share one.
- The drain timeout is a bound if and only if it is not negative and the minimum does not exceed
  it; a negative minimum, which validation also refuses, would not break it: `TimeoutIsABoundIff`.

## Model

| member | source | states |
|---|---|---|
| `TransportPoolProofs.EveryRun` | pkg/userserver/transport_pool.go:43-108 | in every state of every interleaving, each transport is cached under its own cluster, in the hands of exactly one remover, or closed exactly once; cached clusters are allowed ones; and the calls are linearizable: each took effect once, in an order that respects real time and in which the atomic pool gives the same replies and tables |
| `TransportPoolProofs.ConservedBySections` | pkg/userserver/transport_pool.go:50-108 | each critical section, the second check of getOrCreate included, keeps every transport in exactly one place |
| `TransportPoolProofs.LinearizableByDecide` | pkg/userserver/transport_pool.go:43-108 | the section that fixes a call's reply is one atomic operation inside the call |
| `TransportPoolHistory.OneTransportPerStay` | pkg/userserver/transport_pool.go:50-76 | two successful calls for a cluster return the same transport if and only if the cluster was not evicted between them |
| `TransportPoolHistory.AllowedIff` | pkg/userserver/transport_pool.go:43-48 | a cluster is allowed if and only if an allow took effect and no eviction since |
| `TransportPoolHistory.SucceedsIff` | pkg/userserver/transport_pool.go:50-84 | getOrCreate succeeds, and isAllowed answers true, if and only if the cluster was allowed and not evicted since |
| `TransportPoolHistory.EvictionFences` | pkg/userserver/transport_pool.go:86-108 | a success after an eviction implies an allow between the two |
| `TransportPoolHistory.ReturnedEarlierIff` | pkg/userserver/transport_pool.go:43-108 | one call returned before another if and only if it had its response when the other was made |
| `TransportPoolHistory.RemoveFencesLaterCalls` | pkg/userserver/transport_pool.go:86-108 | the same for concurrent calls: after remove or closeAll has returned, a call made later succeeds only if an allow took effect that had not returned before the eviction was called |
| `TransportPoolHistory.ObtainedIsClosedIff` | pkg/userserver/transport_pool.go:50-108 | in every run, the transport a call obtained has been closed if and only if its one close happened since, so until then the caller holds an open one |
| `TransportPoolHistory.ClosedAfterEviction` | pkg/userserver/transport_pool.go:86-108 | and that close is done by a goroutine that evicted the transport's own cluster after the call obtained it |
| `TransportPool.ClusterTransportPool.Allow` | pkg/userserver/transport_pool.go:43-48 | adds the cluster and changes nothing else |
| `TransportPool.ClusterTransportPool.IsAllowed` | pkg/userserver/transport_pool.go:78-84 | answers membership |
| `TransportPool.ClusterTransportPool.Lookup` | pkg/userserver/transport_pool.go:51-62 | the shared section: denied, hit or miss |
| `TransportPool.ClusterTransportPool.LookupOrInsert` | pkg/userserver/transport_pool.go:64-75 | the exclusive section: checks again, and only on a miss inserts a new transport of this cluster |
| `TransportPool.ClusterTransportPool.GetOrCreate` | pkg/userserver/transport_pool.go:50-76 | with others acting between the sections, the call ends in a section after which the cluster is a member with the returned transport, or is no member and the call is refused; without a miss nothing changes |
| `TransportPool.ClusterTransportPool.Remove` | pkg/userserver/transport_pool.go:86-96 | the cluster leaves both tables and its transport, and no other, is closed once |
| `TransportPool.ClusterTransportPool.CloseAll` | pkg/userserver/transport_pool.go:98-108 | both tables are emptied and every transport in them is closed exactly once |
| `OidcLifecycleProofs.AtMostOneLiveDelegate` | pkg/serviceproxy/oidc_authenticator.go:214-271 | in every interleaving at most one delegate context is uncancelled; each is cancelled and cleaned up at most once and never while published; and when reconcileMu is free every delegate but the published one has been cancelled once, and cleaned up once if it was built |
| `OidcLifecycleProofs.FailsClosed` | pkg/serviceproxy/oidc_authenticator.go:211-283 | a snapshot yields an infrastructure error from the first replacement until a delegate is published, and at any time exactly when no delegate is published; otherwise it yields a delegate that is alive |
| `OidcLifecycleProofs.UnreadyIsNeverRejection` | pkg/serviceproxy/oidc_authenticator.go:276-298 | if initializers store the verifier before clearing the health error, an unready verifier is never reported as a rejection |
| `OidcLifecycleProofs.ClearingFirstRejects` | vendor/k8s.io/apiserver/plugin/pkg/authenticator/token/oidc/oidc.go:226-233 | in the opposite order of the initializer such a rejection is reachable |
| `OidcLifecycleProofs.HealthDecides` | pkg/serviceproxy/oidc_authenticator.go:285-298 | for every token: accepted only if valid and its keys can be had, and then whenever the verifier was there; of another issuer, always left to the next provider; of this issuer, rejected if and only if the delegate had been seen healthy and the token is invalid or a key is missing |
| `OidcLifecycleProofs.ValidTokenRejectedIff` | pkg/serviceproxy/oidc_authenticator.go:256-298 | a valid token is rejected if and only if the delegate had been seen healthy and the keys are missing; if keys are missing only for cancelled delegates, then a reconcile has replaced and cancelled the request's delegate since its snapshot |
| `OidcLifecycleProofs.ValidTokenMayBeRejected` | vendor/github.com/coreos/go-oidc/v3/oidc/jwks.go:172-178 | such a run exists: the delegate is cancelled after the health check, and the key has to be fetched with its context |
| `OidcLifecycleProofs.HeldDelegateIsAliveIff` | pkg/serviceproxy/oidc_authenticator.go:214-298 | the delegate a request holds is uncancelled if and only if it is the published one or the one a reconcile still has in hand |
| `OidcLifecycleProofs.SnapshotIsCancelledIff` | pkg/serviceproxy/oidc_authenticator.go:256-298 | after a snapshot, in every run: the delegate has been cancelled if and only if a reconcile that replaced it has taken its cancelling step since |
| `OidcLifecycleProofs.SnapshotMayOutliveDelegate` | pkg/serviceproxy/oidc_authenticator.go:277-289 | a request can hold a delegate that has been cancelled and unpublished |
| `OidcLifecycleProofs.PublishedMatchesObserved` | pkg/serviceproxy/oidc_authenticator.go:218-222 | a published delegate belongs to observedConfiguration if and only if no reconcile is between recording a new configuration and disabling the old delegate |
| `OidcLifecycleProofs.SerializesReconciles` | pkg/serviceproxy/oidc_authenticator.go:211-254 | whenever reconcileMu is free the fields are those of handling the finished requests one at a time, in the order they held it |
| `OidcLifecycleProofs.EveryRun` | pkg/serviceproxy/oidc_authenticator.go:211-298 | the invariant behind these results holds in every state of every run |
| `OidcConfigMap.KeysTellRequestsApart` | pkg/serviceproxy/oidc_authenticator.go:206-209 | observations with the same configuration key ask for the same thing |
| `OidcConfigMap.HistoryIsItsLastBuild` | pkg/serviceproxy/oidc_authenticator.go:211-254 | for every builder, delegates are built once per change into a bundle, and the state is the outcome of the last of these constructions for the last request |
| `OidcConfigMap.HistoryIsItsLastRequest` | pkg/serviceproxy/oidc_authenticator.go:211-254 | with a deterministic builder the state depends on the last request alone |
| `OidcConfigMap.StateFollowsLastObservation` | pkg/serviceproxy/oidc_configmap_controller.go:85-147 | after any observations the exposed state is a function of the last one that was not a lister error |
| `OidcConfigMap.ObservationDecides` | pkg/serviceproxy/oidc_configmap_controller.go:85-147 | for every builder and history, by the last observation that is not a lister error: missing is unavailable; a non-empty text entry, or without one a non-empty binary entry, is exposed if and only if it can be built; anything else is unavailable |
| `OidcConfigMap.NeverHostRoots` | pkg/serviceproxy/oidc_configmap_controller.go:85-131 | in no history does a missing or invalid ConfigMap lead to the host's root CAs |
| `OidcConfigMap.ConcurrentStateFollowsLastRequest` | pkg/serviceproxy/oidc_configmap_controller.go:85-131 | all this for any number of concurrent reconciles, whenever reconcileMu is free |
| `OidcConfigMap.RepeatsAreIgnored` | pkg/serviceproxy/oidc_authenticator.go:218-220 | seeing a configuration again changes nothing |
| `OidcConfigMap.TransientFailureSticks` | pkg/serviceproxy/oidc_authenticator.go:218-232 | so a failed construction can stay although a second one would succeed |
| `OidcAuthenticator.Authenticator.ReplaceDelegate` | pkg/serviceproxy/oidc_authenticator.go:256-271 | publishes the three fields and cancels and cleans up exactly the delegate they replace |
| `OidcAuthenticator.Authenticator.ReconcileCABundle` | pkg/serviceproxy/oidc_authenticator.go:211-240 | moves the state as one request does, keeps the accounting of delegates, and reports change and failure |
| `OidcAuthenticator.Authenticator.MarkUnavailable` | pkg/serviceproxy/oidc_authenticator.go:242-254 | the same for a configuration that cannot produce an authenticator |
| `OidcAuthenticator.CAConfigMapController.ReconcileOnce` | pkg/serviceproxy/oidc_configmap_controller.go:85-131 | one reconcile makes the observation's request; a change of configuration exposes what the observation calls for; only a lister error is reported, and changes nothing |
| `OidcAuthenticator.CAConfigMapController.ReconcileAll` | pkg/serviceproxy/oidc_configmap_controller.go:85-131 | a whole history leads to the state of its requests handled in order, which is what its last observation calls for |
| `OidcIdentity.BareUsernameIff` | pkg/serviceproxy/oidc_authenticator.go:86-98 | a username is the bare claim if and only if prefixing is switched off, or the claim is email without a prefix |
| `OidcIdentity.UsernameIs` | pkg/serviceproxy/oidc_authenticator.go:86-98 | the username for each setting of the prefix: bare, prefixed, or prefixed by issuer and `#` |
| `OidcIdentity.IssuersKeepNamesApart` | pkg/serviceproxy/oidc_authenticator.go:86-98 | with the default prefix, two usernames are equal if and only if issuer and claim are, for issuer URLs without `#` |
| `OidcIdentity.UserValidationRules` | pkg/serviceproxy/oidc_authenticator.go:114-127 | the generated rules pass exactly the users with no reserved prefix in their name or any group |
| `OidcIdentity.RulesMeanUnreserved` | pkg/serviceproxy/oidc_authenticator.go:114-127 | the same for any list of prefixes |
| `OidcIdentity.ReservedNamesStayReserved` | pkg/serviceproxy/authentication.go:121-127 | with `system:` reserved, an identity that passes is forwarded with its groups unchanged followed by exactly one `system:authenticated`, and no name of its own is reserved |
| `OidcIdentity.EmptyPrefixRefusesAll` | pkg/serviceproxy/oidc_authenticator.go:155-158 | an empty reserved prefix would refuse every user |
| `Decimal.AtoiRoundTrip` | pkg/proxyserver/controllers/managedproxyconfiguration_controller.go:248-289 | a generation written to an annotation reads back as itself, for every 64-bit generation |
| `Decimal.AtoiRefusesIff` | pkg/proxyserver/controllers/managedproxyconfiguration_controller.go:282-289 | a generation is unreadable if and only if, after an optional sign, it is empty, has another character than digits, or does not fit |
| `Decimal.DigitsAreCanonical` | pkg/proxyserver/controllers/managedproxyconfiguration_controller.go:248 | a generation is written in digits only and without leading zeros |
| `ApiServer.ApplyAllKeeps` | pkg/proxyserver/controllers/managedproxyconfiguration_controller.go:256-311 | other clients leave an object alone or give it a newer version |
| `ApplyLoop.OnePassKeeps` | pkg/proxyserver/controllers/managedproxyconfiguration_controller.go:234-322 | one pass of ensure: a retry uses up an interfering write and followed a Get that found the object; body and TLS hash of the caller's object are untouched; what was written or read is up to date |
| `ApplyLoop.EnsureTerminates` | pkg/proxyserver/controllers/managedproxyconfiguration_controller.go:234-357 | at most one retry per interfering write, the same rendered hash on every pass, and never a failure because a race was lost |
| `ApplyLoop.EnsureSucceeds` | pkg/proxyserver/controllers/managedproxyconfiguration_controller.go:286-321 | on success ensure wrote the desired object (body and annotations; of a Service, all but network fields it leaves open) with its hash and this generation, or read equal hashes and a generation no lower; an update replaced exactly what was read if and only if the Get found something |
| `ApplyLoop.GenerationsIff` | pkg/proxyserver/controllers/managedproxyconfiguration_controller.go:282-295 | for which generations an object with the right hashes is up to date: up to its own, up to 0 without one, none if unreadable |
| `ApplyLoop.ServiceKeepsNetwork` | pkg/proxyserver/controllers/managedproxyconfiguration_controller.go:324-348 | an updated Service keeps the allocated network fields of the object read and takes all else from the desired one |
| `Deployment.EnsureAlone` | pkg/proxyserver/controllers/managedproxyconfiguration_controller.go:234-322 | undisturbed, ensure leaves the object alone if and only if it is up to date, makes it so on success, and touches no other object |
| `Deployment.EnsureAloneSucceedsIff` | pkg/proxyserver/controllers/managedproxyconfiguration_controller.go:282-306 | undisturbed, a fresh resource fails only on an unreadable generation or a Service that is not one |
| `Deployment.DeployIsNoopIff` | pkg/proxyserver/controllers/managedproxyconfiguration_controller.go:187-232 | an undisturbed deployment reports no modification if and only if every object was up to date, and then changes nothing |
| `Deployment.SecondDeployIsNoop` | pkg/proxyserver/controllers/managedproxyconfiguration_controller.go:187-232 | after a successful deployment a second one changes nothing and reports unmodified |
| `Deployment.DeployCarries` | pkg/proxyserver/controllers/managedproxyconfiguration_controller.go:187-232 | after an undisturbed success every object that was not up to date is the desired one |
| `Deployment.FailedDeployIsPrefix` | pkg/proxyserver/controllers/managedproxyconfiguration_controller.go:203-217 | in any environment, a failed deployment reports no modification and did exactly the resources before the first failure |
| `Deployment.FoundPassOutcome` | pkg/proxyserver/controllers/managedproxyconfiguration_controller.go:256-318 | for every behaviour of others, a pass that finds the object leaves it if and only if it is up to date, retries if and only if it has another version by the update, and updates if and only if it has not |
| `Deployment.BlindUpdateIff` | pkg/proxyserver/controllers/managedproxyconfiguration_controller.go:256-318 | for every resource and every behaviour of others: a pass overwrites an object unread if and only if the object was absent at the Get, present at the Create and at the Update, and these calls got through; it overwrites what is there at the Update, and sends a Service without its assigned addresses |
| `Deployment.UpdateAfterLostCreateIsBlind` | pkg/proxyserver/controllers/managedproxyconfiguration_controller.go:266-307 | one such run, for every kind of resource |
| `Deployment.RetryKeepsVersion` | pkg/proxyserver/controllers/managedproxyconfiguration_controller.go:297-310 | on a retry the caller's object carries no version if and only if it is a Service |
| `Deployment.RecreateAfterConflictIffService` | pkg/proxyserver/controllers/managedproxyconfiguration_controller.go:266-310 | an object gone by the retry is created again if and only if it is a Service, and otherwise the Create is refused, whatever others do meanwhile and afterwards |
| `Reconciler.Cluster.Swap` | pkg/proxyserver/controllers/managedproxyconfiguration_controller.go:297-318 | the update in place does what the model's update does, to the server and to the caller's object |
| `Reconciler.Cluster.Attempt` | pkg/proxyserver/controllers/managedproxyconfiguration_controller.go:234-321 | one call of ensure up to its recursion does what one pass of the model does |
| `Reconciler.Cluster.Ensure` | pkg/proxyserver/controllers/managedproxyconfiguration_controller.go:234-322 | the recursion terminates and ends as the model's loop, of which the results above are proved |
| `Reconciler.Cluster.DeployProxyServer` | pkg/proxyserver/controllers/managedproxyconfiguration_controller.go:187-232 | the loop with its accumulators deploys as the model does; a failure reports no modification; after an undisturbed success every object that was not up to date is the desired one |
| `CaBootstrap.HasOwnerReference` | pkg/proxyserver/operator/authentication/selfsigned/self_sign_certificate.go:94-101 | true if and only if some reference has the target's UID |
| `CaBootstrap.DataIsImmutable` | pkg/proxyserver/operator/authentication/selfsigned/self_sign_certificate.go:59-68 | no step of any replica takes the secret away or changes its data; a change of owners shows in a newer version |
| `CaBootstrap.OwnerIsSet` | pkg/proxyserver/operator/authentication/selfsigned/self_sign_certificate.go:59-68 | a replica that finishes leaves a secret that names its owner |
| `CaBootstrap.FailsOnlyIf` | pkg/proxyserver/operator/authentication/selfsigned/self_sign_certificate.go:49-91 | a replica fails only if its own call failed, the stored CA does not parse, or the secret changed under its owner update |
| `CaBootstrap.EveryRun` | pkg/proxyserver/operator/authentication/selfsigned/self_sign_certificate.go:49-92 | the invariant behind these results holds in every state of every run |
| `CaBootstrap.ReplicasAgree` | pkg/proxyserver/operator/authentication/selfsigned/self_sign_certificate.go:49-92 | without deletion every replica that finished holds the CA in the secret, so all agree, and none lost the creation race twice |
| `CaBootstrap.RestartsBounded` | pkg/proxyserver/operator/authentication/selfsigned/self_sign_certificate.go:88-90 | with deletions, at most one restart more than there were deletions |
| `CaBootstrap.FirstWriterWins` | pkg/proxyserver/operator/authentication/selfsigned/secret.go:31-51 | once created, the secret's data stays what it is until a deletion |
| `CaBootstrap.AgreementIff` | pkg/proxyserver/operator/authentication/selfsigned/self_sign_certificate.go:49-92 | after k deletions of the secret, finished replicas are sure to agree if and only if k is zero |
| `CaBootstrap.DeletionBreaksAgreement` | pkg/proxyserver/operator/authentication/selfsigned/self_sign_certificate.go:49-92 | one deletion lets two replicas finish with any two different CAs |
| `SelfSigner.NewSelfSignerFromSecretOrGenerate` | pkg/proxyserver/operator/authentication/selfsigned/self_sign_certificate.go:49-131 | with other replicas acting between the calls, a returned signer holds the stored CA: its own, written first, with serial numbers from 1, or an adopted one, with serial numbers after the CA's own; without failing calls there is a secret afterwards and a signer if and only if it is readable, and a refusal means unparsable data or a write by others; data that is not PEM ends in a panic |
| `SelfSigner.Signer.Sign` | pkg/proxyserver/operator/authentication/selfsigned/self_sign_certificate.go:141-150 | hands out the next serial number and moves on by one |
| `SelfSigner.Signer.SignMany` | pkg/proxyserver/operator/authentication/selfsigned/self_sign_certificate.go:149-150 | one signer hands out consecutive, distinct serial numbers |
| `SelfSigner.SignBoth` | pkg/proxyserver/operator/authentication/selfsigned/self_sign_certificate.go:149-150 | two signers use a serial number in common if and only if both sign and neither has stopped before the other starts |
| `SelfSigner.TwoAdopters` | pkg/proxyserver/operator/authentication/selfsigned/self_sign_certificate.go:117-150 | two replicas that adopt one stored CA sign their first certificates under it with the same serial number |
| `AuthChain.ServiceProxy.ServeHTTP` | pkg/serviceproxy/service_proxy.go:269-322 | 400 if and only if there is no target; 401 if and only if the target is the API server and authentication does not let the request pass; a forwarded API request has all headers unchanged, or the proxy's own token with impersonation headers for exactly one vouched-for user and its groups in order and every other header untouched; the user is the one of the first provider that does not reject: unchanged for the managed cluster, a hub service account under `cluster:hub:` and other hub users under their names, OIDC users with `system:authenticated` completed; any other forwarded request is unchanged |
| `AuthChain.ServiceProxy.Authenticate` | pkg/serviceproxy/service_proxy.go:291-306 | no error if and only if there are no providers, the client asks for impersonation itself, or the first provider that does not reject the token accepts it and its identity can be applied |
| `AuthChain.ProcessAuthentication` | pkg/serviceproxy/authentication.go:57-88 | consults exactly the providers up to the first that accepts the token or cannot tell; fails for all rejecting if and only if all reject; otherwise that provider alone decides |
| `AuthChain.LastProviderIsIrrelevant` | pkg/serviceproxy/authentication.go:57-88 | for a token an earlier provider does not reject, any two states of the last provider let the same requests pass with the same headers |
| `AuthChain.OidcIsLast` | pkg/serviceproxy/auth_provider.go:61-66 | in the default registry an enabled OIDC provider is the last |
| `AuthChain.ServiceProxy.InitializeAuthProviders` | pkg/serviceproxy/auth_provider.go:79-118 | publishes the managed cluster and all enabled providers in registry order, or, if one cannot be built, leaves the old list |
| `AuthChain.EnabledFactories` | pkg/serviceproxy/auth_provider.go:80-86 | the enabled factories build what all of them build, and there are none if and only if none is enabled |
| `AuthChain.BuildAll` | pkg/serviceproxy/auth_provider.go:97-103 | all providers in order, or a failure if one fails |
| `AuthChain.ImpersonateUser` | pkg/serviceproxy/authentication.go:132-159 | exactly this user and these groups are impersonated, no impersonation header of the client survives, other headers stay; the token is replaced if and only if the own token can be read |
| `AuthChain.DeleteImpersonationHeaders` | pkg/serviceproxy/authentication.go:46-52 | removes exactly the impersonation headers |
| `AuthChain.HasClientImpersonationHeaders` | pkg/serviceproxy/authentication.go:37-44 | true if and only if there is an impersonation header |
| `AuthChain.ImpersonationInAnyCase` | pkg/serviceproxy/authentication.go:30-33 | impersonation headers are recognised in any mixture of cases, as the prefix followed by anything |
| `AuthChain.ImpersonationIff` | pkg/serviceproxy/authentication.go:30-33 | they are exactly the names beginning with the twelve characters of `Impersonate-`, each in either case |
| `AuthChain.BearerTokenIsRead` | pkg/serviceproxy/authentication.go:59 | the providers are asked about the token of a Bearer header (section 2.1 of RFC 6750), the whole of any other value, and nothing without a header |
| `AuthChain.HubServiceAccountsStayApart` | pkg/serviceproxy/hub_auth_provider.go:33-39 | a hub service account never has the name of a managed-cluster one and can be read back; other names are kept |
| `AuthChain.RejectionTextIsFound` | pkg/serviceproxy/token_authenticator.go:50-95 | the known rejection text is a rejection in any capitalisation and context, whatever user and verdict the review carries |
| `AuthChain.RejectionIff` | pkg/serviceproxy/token_authenticator.go:50-58 | a review's error is a rejection if and only if the known text occurs in it, in any capitalisation |
| `AuthChain.ReviewAnswerIff` | pkg/serviceproxy/token_authenticator.go:68-107 | a user is accepted exactly from a review without error that says so; a token is turned away exactly by one that says no or by the known text; all else is a failure |
| `Routing.ServiceRoundTrip` | pkg/utils/utils.go:55-86 | a service URI printed from well-formed components is classified as a service and parsed back into them, without its query |
| `Routing.AnyServiceURI` | pkg/utils/utils.go:58-86 | the same for every URI of the service form, whatever its fixed parts say: the target comes from its second, sixth and eighth parts and the text after the ninth |
| `Routing.SchemeNamePortRoundTrip` | vendor/k8s.io/apimachinery/pkg/util/net/port_split.go:36-78 | splitting undoes joining |
| `Routing.SchemeNamePortIff` | vendor/k8s.io/apimachinery/pkg/util/net/port_split.go:36-57 | what each of the three forms of a service name is split into, and when it is refused |
| `Routing.AcceptedServiceName` | vendor/k8s.io/apimachinery/pkg/util/net/port_split.go:36-57 | a name that is accepted has one of these forms |
| `Routing.EndToEnd` | pkg/utils/utils.go:42-139 | from URI through the hub's headers, the agent gets the address of the original components |
| `Routing.AddressIs` | pkg/utils/utils.go:125-131 | the agent goes to the API server exactly for `kubernetes` in `default`, in any mixture of cases, and else to the named service |
| `Routing.ServiceIsLongEnough` | pkg/utils/utils.go:58-70 | a URI classified as a service never fails the parser's length check, and is refused only for its service name |
| `Routing.AgentRefusesIff` | pkg/utils/utils.go:113-139 | of the URIs the hub accepts, the agent refuses exactly those with an empty port, an empty namespace, or an address that the URL parser refuses |
| `Routing.NamedPortsAreRefused` | pkg/utils/utils.go:125-136 | for services, namespaces and ports made of plain names: exactly an empty port or namespace, or a port that is not a number unless the API server is asked for |
| `Routing.NamedPortExample` | pkg/utils/utils.go:113-148 | a request for a port called `web`, a form the documentation allows, is accepted by the hub and refused by the agent |
| `Routing.KubeAPIServerRoute` | pkg/utils/utils.go:91-139 | a Kubernetes API request goes to the cluster between the first two slashes with the text after them up to the first question mark, and the agent resolves it to the API server |
| `Routing.OneSlashIsRefused` | pkg/utils/utils.go:99-103 | a URI with fewer slashes is refused |
| `Routing.TwoSlashes` | pkg/utils/utils.go:99-103 | every URI with at least two slashes has that form |
| `Routing.QueryChangesTypeIff` | pkg/utils/utils.go:149-155 | for every path and query: adding the query changes the classification if and only if the path has fewer than nine parts and the query puts `proxy-service` in the ninth with something after it; and it only ever turns an API request into a service one |
| `Routing.PlainQueryIsIgnored` | pkg/utils/utils.go:149-155 | a query without a slash does not change the classification |
| `Routing.SlashedQueryChangesType` | pkg/utils/utils.go:149-155 | a query with slashes can turn a Kubernetes API request into a service one |
| `Routing.Request.UpdateRequest` | pkg/utils/utils.go:42-53 | sets the path and the four headers and nothing else |
| `Allowlist.ParseExposedServices` | pkg/userserver/service_allowlist.go:66-83 | empty text is no entries; otherwise all entries decoded, if all name a namespace and a service |
| `Allowlist.ParseAllExposedServices` | pkg/userserver/service_allowlist.go:51-61 | fails if and only if some value fails, and otherwise yields the union, in whatever order the keys come |
| `Allowlist.OrderIsIrrelevant` | pkg/userserver/service_allowlist.go:51-61 | any two orders of the keys parse alike and admit the same targets |
| `Allowlist.OneOfFourEntries` | pkg/userserver/service_allowlist.go:30-44 | a target is admitted if and only if its own namespace and service are listed with its own port or none and its own protocol or none |
| `Allowlist.ServiceAllowlist.IsAllowed` | pkg/userserver/service_allowlist.go:104-115 | true if and only if some entry matches the target |
| `Allowlist.Handle` | pkg/userserver/service_allowlist_watcher.go:48-79 | an event that parses replaces the entries, a deletion empties them, anything else keeps the last good list |
| `Allowlist.WantedIff` | pkg/userserver/service_allowlist.go:51-83 | a ConfigMap counts for nothing if and only if one of its values is undecodable or has an entry without namespace or service; otherwise it asks for exactly the entries of all values |
| `Allowlist.DeletionDeniesAll` | pkg/userserver/service_allowlist_watcher.go:74-79 | directly after a deletion nothing is admitted |
| `Allowlist.Watch` | pkg/userserver/service_allowlist_watcher.go:48-79 | after any events the list holds the entries in force |
| `Allowlist.LastGoodEventDecides` | pkg/userserver/service_allowlist_watcher.go:48-79 | the entries in force are those of the last event that parsed, a deletion counting as empty |
| `Allowlist.DenyUntilParsed` | pkg/userserver/service_allowlist.go:85-97 | before any such event nothing is admitted |
| `Allowlist.InForceIsComplete` | pkg/userserver/service_allowlist.go:63-83 | whatever the events, no entry in force lacks a namespace or a service, so a target without one is never admitted |
| `UserServerModel.ChecksComeFirst` | pkg/userserver/user_server.go:252-323 | under any changes of membership and allowlist, a request that opens a tunnel, creates a transport or is sent passed its membership check and, if a service request, matched an entry at its check; a transport is created only for that cluster while it is a member |
| `UserServerModel.ForwardingIsChecked` | pkg/userserver/user_server.go:252-310 | so did every request that is forwarded |
| `UserServerModel.StatusSaysWhy` | pkg/userserver/user_server.go:252-310 | 404 exactly where the cluster is no member, 403 exactly where the list does not admit the request, 400 in the other steps that refuse |
| `UserServerModel.SentWithoutMembershipIff` | pkg/userserver/user_server.go:271-323 | in every run, when a request is sent its cluster is no member if and only if it was evicted after the request's last membership section, and not allowed since; that section is the first check for upgrade requests and the pool's own for all others |
| `UserServerModel.SentUnlistedIff` | pkg/userserver/user_server.go:276-323 | in every run, when a request is sent the list in force does not admit it if and only if such a list came into force after the request's check, and none that admits it since |
| `UserServerModel.SentAfterBothLeft` | pkg/userserver/user_server.go:303-323 | every routable request some list admits, upgrade or not, can be sent after both its cluster and its entry have left |
| `UserServerModel.LeavesWithoutMembershipIff` | pkg/userserver/user_server.go:252-323 | a routable request can be sent while its cluster is no member if and only if it is not a service request without a namespace, which no list admits |
| `UserServerModel.HandedOutWithoutMembershipIff` | pkg/userserver/user_server.go:276-310 | it can be handed its tunnel or transport while its cluster is no member if and only if it is moreover an upgrade request |
| `UserServerModel.PooledWhileMember` | pkg/userserver/user_server.go:303-310 | a pooled transport, cached or new, is only handed out while the cluster is a member, and is the one cached for it |
| `UserServerModel.TunnelAfterRemoval` | pkg/userserver/user_server.go:290-302 | the tunnel of every such upgrade request, to the API server or a service, can be opened after its cluster has left |
| `UserServerModel.EveryRun` | pkg/userserver/user_server.go:252-310 | the invariant behind these results holds in every state of every run |
| `UserServer.Server.ServeHTTP` | pkg/userserver/user_server.go:242-323 | the first failing check decides the status and leaves the request as it came: target, membership, list, host, then the tunnel or the second membership check; a forwarded request passed all of them and points at its target |
| `Drain.PlannedShutdown` | pkg/utils/http_server.go:126-171 | with a valid configuration, Shutdown is called with readiness off and no earlier than MinDuration after it was turned off (exactly then, since time is assumed to pass only while the goroutine is blocked), and a planned shutdown returns within Timeout of the cancellation |
| `Drain.ReadinessGoesFirst` | pkg/utils/http_server.go:147-160 | the step that calls Shutdown comes after readiness was turned off, or with it when there is no minimum |
| `Drain.ReadinessStaysOff` | pkg/utils/http_server.go:97-99 | once off, readiness never returns |
| `Drain.SendNeverBlocks` | pkg/utils/http_server.go:133-139 | a server goroutine can always send its result |
| `Drain.ExitNamesItsCause` | pkg/utils/http_server.go:161-181 | in every run a named failure is of a server that failed, an unexpected stop of one that stopped without failing, and a clean exit follows a shutdown that found no request or ran into its deadline |
| `Drain.ResultDecidesExit` | pkg/utils/http_server.go:173-181 | which exit the first result gives |
| `Drain.TimeoutIsABoundIff` | pkg/utils/http_server.go:40-51 | Timeout bounds every planned shutdown if and only if it is not negative and MinDuration does not exceed it; Validate accepts exactly those with MinDuration not negative |
| `Drain.EveryRun` | pkg/utils/http_server.go:126-171 | the invariant behind these results holds in every state of every run |

## Left out

- Command wiring, flags, logging, TLS and certificate loading, gRPC tunnels and the reverse proxies' own header handling.
- Informers, work queues, the decoders for add-ons and tombstones, and the resynchronisation period: the pool's operations are called in any order instead.
- The TokenReview cache, CEL and JWT evaluation, PEM, YAML, JSON and SHA codecs: parameters with the assumptions above.
- Cancellation of the OIDC authenticator's parent context, and the release of a transport inside a delegate construction that fails.
- Required claims, claim mapping of groups, and the compilation of OIDC options: validation of the configuration by a library.
- The text of authentication errors, UIDs and extra values of users: never forwarded by the rewriting modelled here.
- The lookup of an object's kind in deployProxyServer and events about created and updated kinds: reporting only.
- Failures of the hash computation in ensure, before anything is written.
- The server's response copied back into the caller's object after a successful write: the object is not used again.
- API calls that take effect although they report a failure.
- The shortcut of RunHTTPServers for a context that is already cancelled.
- Two goroutines in one signer's Sign at once: the source does not lock the serial number.
- Status refresh and subject alternative names, which copy fields between the configuration, the status and certificate requests; port forwarding, which copies bytes between streams; chart values and image names, which are formatted from the configuration; bundle merging and service deduplication, which append, sort and drop repeats.
- TransportPool.ClusterTransportPool.GetOrCreate: states its own two sections with others acting between them; that the call is one atomic operation among all calls is `TransportPoolProofs.EveryRun`.
- SelfSigner.NewSelfSignerFromSecretOrGenerate: other replicas may do anything but delete the secret or change its data; deletions are in `CaBootstrap.RestartsBounded` and `CaBootstrap.DeletionBreaksAgreement`.
- SelfSigner.Signer.Sign: models the serial number only, not the certificate template and its signature.
