/** Authentication in the service proxy: who a request comes from, and what is forwarded for it. */
module AuthChain {
  import opened Wrappers
  import opened Strings
  import opened Routing

  datatype User = User(name: string, groups: seq<string>)

  const AUTHORIZATION := "Authorization"
  const IMPERSONATE_PREFIX := "Impersonate-"
  const IMPERSONATE_USER := "Impersonate-User"
  const IMPERSONATE_GROUP := "Impersonate-Group"
  const ALL_AUTHENTICATED := "system:authenticated"

  // ---------------------------------------------------------------------------------------
  // Authenticators.

  /** The three results of an authenticator: a user, a token that is not its own, or an error,
      which is either an explicit rejection or a failure of the infrastructure. */
  datatype Answer = Authenticated(user: User) | NotAuthenticated | TokenRejected | Unavailable(error: string)

  predicate Rejects(a: Answer) {
    a.NotAuthenticated? || a.TokenRejected?
  }

  /** The status of a TokenReview, or the failure to get one. */
  datatype Review = ReviewFailed(error: string) | Review(error: string, authenticated: bool, user: User)

  const REJECTION_PATTERNS := ["invalid bearer token"]

  predicate IsAuthRejection(statusError: string) {
    exists i :: 0 <= i < |REJECTION_PATTERNS| && Contains(ToLower(statusError), REJECTION_PATTERNS[i])
  }

  /** An error in the status counts before everything else; only a known text is a rejection. */
  function TokenReviewAnswer(r: Review): Answer {
    match r
    case ReviewFailed(e) => Unavailable(e)
    case Review(e, authenticated, user) =>
      if e != "" then (if IsAuthRejection(e) then TokenRejected else Unavailable(e))
      else if authenticated then Authenticated(user)
      else NotAuthenticated
  }

  datatype Source = ManagedCluster | Hub | Oidc

  datatype Provider = Provider(source: Source, answer: string -> Answer)

  // ---------------------------------------------------------------------------------------
  // Identities.

  function HubUsername(name: string): string {
    if HasPrefix(name, "system:serviceaccount:") then "cluster:hub:" + name else name
  }

  function ExternalGroups(groups: seq<string>): seq<string> {
    if ALL_AUTHENTICATED in groups then groups else groups + [ALL_AUTHENTICATED]
  }

  /** The identity the proxy assumes for a user; none when the cluster knows the user itself. */
  function Assumed(source: Source, u: User): Option<User> {
    match source
    case ManagedCluster => None
    case Hub => Some(User(HubUsername(u.name), u.groups))
    case Oidc => Some(User(u.name, ExternalGroups(u.groups)))
  }

  /** A hub service account is never taken for one of the managed cluster, and its name can be
      read back; every other hub name is kept. */
  lemma HubServiceAccountsStayApart(name: string)
    ensures !HasPrefix(HubUsername(name), "system:serviceaccount:")
    ensures HubUsername(name) == name <==> !HasPrefix(name, "system:serviceaccount:")
    ensures HasPrefix(name, "system:serviceaccount:") ==> TrimPrefix(HubUsername(name), "cluster:hub:") == name
  {
    if HasPrefix(name, "system:serviceaccount:") {
      var hubName := "cluster:hub:" + name;
      assert hubName[..12] == "cluster:hub:" && hubName[12..] == name;
      assert hubName[..22][0] == 'c' != "system:serviceaccount:"[0];
    }
  }

  lemma {:induction false} ContainsMiddle(x: string, pattern: string, y: string)
    ensures Contains(x + pattern + y, pattern)
  {
    var s := x + pattern + y;
    if x == "" {
      assert s[..|pattern|] == pattern;
    } else {
      ContainsMiddle(x[1..], pattern, y);
      assert s[1..] == x[1..] + pattern + y;
    }
  }

  lemma {:induction false} ContainsAt(s: string, pattern: string) returns (k: nat)
    requires Contains(s, pattern)
    ensures k + |pattern| <= |s| && s[k..k + |pattern|] == pattern
  {
    if HasPrefix(s, pattern) {
      k := 0;
    } else {
      var m := ContainsAt(s[1..], pattern);
      k := m + 1;
      assert s[1..][m..m + |pattern|] == s[k..k + |pattern|];
    }
  }

  /** The character is this letter in either case, or a letter whose lower-case form it is. */
  predicate Reads(c: char, lower: char, upper: char) {
    c == lower || c == upper || (c == '\U{212A}' && lower == 'k') || (c == '\U{130}' && lower == 'i')
  }

  predicate ReadsRejection(text: string) {
    |text| == 20 && forall k :: 0 <= k < 20 ==> Reads(text[k], "invalid bearer token"[k], "INVALID BEARER TOKEN"[k])
  }

  predicate RejectionTextAt(error: string, i: int) {
    0 <= i && i + 20 <= |error| && ReadsRejection(error[i..i + 20])
  }

  lemma ReadsRune(c: char, lower: char, upper: char)
    requires ('a' <= lower <= 'z' && upper == lower - ('a' - 'A')) || lower == upper == ' '
    ensures LowerRune(c) == lower <==> Reads(c, lower, upper)
  {
  }

  lemma ReadsIsLower(text: string)
    requires |text| == 20
    ensures ToLower(text) == "invalid bearer token" <==> ReadsRejection(text)
  {
    var lower, upper := "invalid bearer token", "INVALID BEARER TOKEN";
    assert forall k :: 0 <= k < 20 ==> ToLower(text)[k] == LowerRune(text[k]);
    forall k | 0 <= k < 20 ensures LowerRune(text[k]) == lower[k] <==> Reads(text[k], lower[k], upper[k]) {
      ReadsRune(text[k], lower[k], upper[k]);
    }
    if ReadsRejection(text) {
      assert forall k :: 0 <= k < 20 ==> ToLower(text)[k] == lower[k];
    }
  }

  lemma RejectionHasText(error: string) returns (k: nat)
    requires IsAuthRejection(error)
    ensures RejectionTextAt(error, k)
  {
    k := ContainsAt(ToLower(error), REJECTION_PATTERNS[0]);
    assert |REJECTION_PATTERNS[0]| == 20;
    var text := error[k..k + 20];
    assert ToLower(text) == ToLower(error)[k..k + 20];
    ReadsIsLower(text);
  }

  lemma TextIsRejection(error: string, i: int)
    requires RejectionTextAt(error, i)
    ensures IsAuthRejection(error)
  {
    var before, text, after := error[..i], error[i..i + 20], error[i + 20..];
    ReadsIsLower(text);
    RejectionTextIsFound(before, text, after, false, User("", []));
    assert before + text + after == error;
  }

  /** An error is a rejection exactly if the known text occurs in it, in any capitalisation. */
  lemma RejectionIff(error: string)
    ensures IsAuthRejection(error) <==> exists i :: RejectionTextAt(error, i)
  {
    if IsAuthRejection(error) {
      var k := RejectionHasText(error);
    }
    if i :| RejectionTextAt(error, i) {
      TextIsRejection(error, i);
    }
  }

  /** A user is accepted exactly from a review without an error that says so; a token is turned
      away exactly by a review that says no, or with the known text; all else is a failure. */
  lemma ReviewAnswerIff(r: Review, u: User)
    ensures TokenReviewAnswer(r) == Authenticated(u) <==> r == Review("", true, u)
    ensures TokenReviewAnswer(r) == NotAuthenticated <==> r.Review? && r.error == "" && !r.authenticated
    ensures TokenReviewAnswer(r) == TokenRejected <==> r.Review? && r.error != "" && IsAuthRejection(r.error)
    ensures TokenReviewAnswer(r).Unavailable? <==>
      r.ReviewFailed? || (r.error != "" && !IsAuthRejection(r.error))
  {
  }

  /** However it is capitalised and whatever surrounds it, the known text is a rejection. */
  lemma RejectionTextIsFound(x: string, text: string, y: string, authenticated: bool, user: User)
    requires ToLower(text) == "invalid bearer token"
    ensures IsAuthRejection(x + text + y)
    ensures TokenReviewAnswer(Review(x + text + y, authenticated, user)) == TokenRejected
  {
    assert ToLower(x + text + y) == ToLower(x) + ToLower(text) + ToLower(y);
    ContainsMiddle(ToLower(x), "invalid bearer token", ToLower(y));
    assert REJECTION_PATTERNS[0] == "invalid bearer token";
    assert |text| == |ToLower(text)|;
  }

  // ---------------------------------------------------------------------------------------
  // Headers.

  predicate IsImpersonation(key: string) {
    |key| >= |IMPERSONATE_PREFIX| && SameName(key[..|IMPERSONATE_PREFIX|], IMPERSONATE_PREFIX)
  }

  predicate HasClientImpersonation(h: Headers) {
    exists key :: key in h && IsImpersonation(key)
  }

  function Strip(h: Headers): Headers {
    map key | key in h && !IsImpersonation(key) :: h[key]
  }

  /** A header map whose other fields are those of `before`. */
  ghost predicate OtherHeadersKept(before: Headers, after: Headers) {
    forall key :: !IsImpersonation(key) && key != AUTHORIZATION ==>
      (key in after <==> key in before) && (key in after ==> after[key] == before[key])
  }

  /** Exactly this user and these groups, in order, are impersonated. */
  ghost predicate Impersonates(h: Headers, u: User) {
    && IMPERSONATE_USER in h && h[IMPERSONATE_USER] == [u.name]
    && (if u.groups == [] then IMPERSONATE_GROUP !in h
        else IMPERSONATE_GROUP in h && h[IMPERSONATE_GROUP] == u.groups)
    && forall key :: key in h && IsImpersonation(key) ==> key == IMPERSONATE_USER || key == IMPERSONATE_GROUP
  }

  ghost predicate CarriesIdentity(before: Headers, after: Headers, u: User, token: string) {
    && AUTHORIZATION in after && after[AUTHORIZATION] == ["Bearer " + token]
    && Impersonates(after, u)
    && OtherHeadersKept(before, after)
  }

  lemma ImpersonationKeys()
    ensures IsImpersonation(IMPERSONATE_USER) && IsImpersonation(IMPERSONATE_GROUP)
    ensures !IsImpersonation(AUTHORIZATION)
  {
    assert IMPERSONATE_USER[..12] == IMPERSONATE_PREFIX;
    assert IMPERSONATE_GROUP[..12] == IMPERSONATE_PREFIX;
    assert Lower(AUTHORIZATION[..12][0]) == 'a' != Lower(IMPERSONATE_PREFIX[0]);
  }

  /** Impersonation headers are recognised by their prefix, in any mixture of cases. */
  lemma ImpersonationInAnyCase(key: string, other: string)
    requires SameName(key, other)
    ensures IsImpersonation(key) <==> IsImpersonation(other)
    ensures IsImpersonation(key) <==> exists rest :: SameName(key, IMPERSONATE_PREFIX + rest)
  {
    var n := |IMPERSONATE_PREFIX|;
    if |key| >= n {
      assert forall i :: 0 <= i < n ==> Lower(key[..n][i]) == Lower(other[..n][i]);
      if IsImpersonation(key) {
        assert SameName(key, IMPERSONATE_PREFIX + key[n..]);
      }
    }
    if rest :| SameName(key, IMPERSONATE_PREFIX + rest) {
      assert forall i :: 0 <= i < n ==> Lower(key[..n][i]) == Lower((IMPERSONATE_PREFIX + rest)[i]);
    }
  }

  /** They are exactly the names that begin with these twelve characters, each in either case. */
  lemma ImpersonationIff(key: string)
    ensures IsImpersonation(key) <==>
      |key| >= 12 && forall i :: 0 <= i < 12 ==> key[i] == "impersonate-"[i] || key[i] == "IMPERSONATE-"[i]
  {
    if |key| >= 12 {
      forall i | 0 <= i < 12
        ensures Lower(key[..12][i]) == Lower(IMPERSONATE_PREFIX[i]) <==>
                key[i] == "impersonate-"[i] || key[i] == "IMPERSONATE-"[i]
      {
        assert key[..12][i] == key[i];
      }
      if IsImpersonation(key) {
        forall i | 0 <= i < 12 ensures key[i] == "impersonate-"[i] || key[i] == "IMPERSONATE-"[i] {
          assert Lower(key[..12][i]) == Lower(IMPERSONATE_PREFIX[i]);
        }
      }
    }
  }

  method DeleteImpersonationHeaders(req: Request)
    modifies req`header
    ensures req.header == Strip(old(req.header))
  {
    var todo := req.header.Keys;
    while todo != {}
      invariant todo <= old(req.header).Keys
      invariant forall key :: key in req.header <==>
        key in old(req.header) && (key in todo || !IsImpersonation(key))
      invariant forall key :: key in req.header ==> req.header[key] == old(req.header)[key]
    {
      var key :| key in todo;
      if IsImpersonation(key) {
        req.header := req.header - {key};
      }
      todo := todo - {key};
    }
  }

  function WithGroups(h: Headers, groups: seq<string>): Headers {
    if groups == [] then h else h[IMPERSONATE_GROUP := groups]
  }

  /** Adds one value per group, keeping their order. */
  method AddGroups(req: Request, groups: seq<string>)
    requires IMPERSONATE_GROUP !in req.header
    modifies req`header
    ensures req.header == WithGroups(old(req.header), groups)
  {
    for n := 0 to |groups|
      invariant req.header == WithGroups(old(req.header), groups[..n])
    {
      var sofar := if IMPERSONATE_GROUP in req.header then req.header[IMPERSONATE_GROUP] else [];
      req.header := req.header[IMPERSONATE_GROUP := sofar + [groups[n]]];
      assert sofar == groups[..n] && groups[..n] + [groups[n]] == groups[..n + 1];
    }
    assert groups[..|groups|] == groups;
  }

  /** The header map with an identity in it, whatever impersonation headers were there before. */
  lemma IdentityHeaders(before: Headers, u: User, token: string)
    ensures var half := WithGroups(Strip(before), u.groups)[IMPERSONATE_USER := [u.name]];
      && Impersonates(half, u) && OtherHeadersKept(before, half)
      && (AUTHORIZATION in half <==> AUTHORIZATION in before)
      && CarriesIdentity(before, half[AUTHORIZATION := ["Bearer " + token]], u, token)
  {
    ImpersonationKeys();
    var half := WithGroups(Strip(before), u.groups)[IMPERSONATE_USER := [u.name]];
    assert IMPERSONATE_GROUP != IMPERSONATE_USER && IMPERSONATE_GROUP !in Strip(before);
    assert AUTHORIZATION != IMPERSONATE_GROUP && AUTHORIZATION != IMPERSONATE_USER;
    assert Impersonates(half, u);
    assert Impersonates(half[AUTHORIZATION := ["Bearer " + token]], u);
  }

  /** `token` is the proxy's own token, absent when it cannot be read. */
  method ImpersonateUser(req: Request, u: User, token: Option<string>) returns (ok: bool)
    modifies req`header
    ensures ok <==> token.Some?
    ensures ok ==> CarriesIdentity(old(req.header), req.header, u, token.value)
    ensures Impersonates(req.header, u) && OtherHeadersKept(old(req.header), req.header)
  {
    ImpersonationKeys();
    IdentityHeaders(req.header, u, if token.Some? then token.value else "");
    DeleteImpersonationHeaders(req);
    AddGroups(req, u.groups);
    req.header := req.header[IMPERSONATE_USER := [u.name]];
    if token.None? {
      return false;
    }
    req.header := req.header[AUTHORIZATION := ["Bearer " + token.value]];
    return true;
  }

  // ---------------------------------------------------------------------------------------
  // The chain of providers.

  function BearerToken(h: Headers): string {
    TrimPrefix(Get(h, AUTHORIZATION), "Bearer ")
  }

  /** The token of a Bearer header, the whole of any other value, and nothing without a header; of
      several values the first counts. */
  lemma BearerTokenIsRead(h: Headers, token: string, value: string, more: seq<string>)
    ensures BearerToken(h["Authorization" := ["Bearer " + token] + more]) == token
    ensures (|value| < 7 || value[..7] != "Bearer ") ==> BearerToken(h["Authorization" := [value] + more]) == value
    ensures "Authorization" !in h ==> BearerToken(h) == ""
  {
    assert ("Bearer " + token)[..7] == "Bearer " && ("Bearer " + token)[7..] == token;
  }

  /** The first provider that does not reject the token. */
  ghost predicate FirstToAnswer(ps: seq<Provider>, token: string, i: nat) {
    && i < |ps|
    && !Rejects(ps[i].answer(token))
    && forall j :: 0 <= j < i ==> Rejects(ps[j].answer(token))
  }

  datatype AuthError = ProviderFailed(source: Source) | IdentityFailed(source: Source) | NoProviderAccepts

  /** `consulted` counts the providers that were asked, always a prefix of the list. */
  method ProcessAuthentication(ps: seq<Provider>, req: Request, ownToken: Option<string>)
    returns (error: Option<AuthError>, consulted: nat)
    modifies req`header
    ensures consulted <= |ps|
    ensures forall j :: 0 <= j < consulted - 1 ==> Rejects(ps[j].answer(BearerToken(old(req.header))))
    ensures forall j :: 0 <= j < consulted - 1 ==>
      !ps[j].answer(BearerToken(old(req.header))).Authenticated?
      && !ps[j].answer(BearerToken(old(req.header))).Unavailable?
    ensures error == Some(NoProviderAccepts) <==>
      forall j :: 0 <= j < |ps| ==> Rejects(ps[j].answer(BearerToken(old(req.header))))
    ensures error == Some(NoProviderAccepts) ==> consulted == |ps|
    ensures error != Some(NoProviderAccepts) ==>
      consulted > 0 && FirstToAnswer(ps, BearerToken(old(req.header)), consulted - 1)
    ensures error != Some(NoProviderAccepts) ==>
      var p := ps[consulted - 1];
      match p.answer(BearerToken(old(req.header))) {
        case Authenticated(u) =>
          if Assumed(p.source, u).None? then error.None? && req.header == old(req.header)
          else if ownToken.None? then error == Some(IdentityFailed(p.source))
          else error.None?
               && CarriesIdentity(old(req.header), req.header, Assumed(p.source, u).value, ownToken.value)
        case _ => error == Some(ProviderFailed(p.source)) && req.header == old(req.header)
      }
  {
    var token := BearerToken(req.header);
    for i := 0 to |ps|
      invariant req.header == old(req.header)
      invariant forall j :: 0 <= j < i ==> Rejects(ps[j].answer(token))
    {
      var answer := ps[i].answer(token);
      if answer.Unavailable? {
        return Some(ProviderFailed(ps[i].source)), i + 1;
      }
      if answer.Authenticated? {
        var assumed := Assumed(ps[i].source, answer.user);
        if assumed.Some? {
          var ok := ImpersonateUser(req, assumed.value, ownToken);
          if !ok {
            return Some(IdentityFailed(ps[i].source)), i + 1;
          }
        }
        return None, i + 1;
      }
    }
    return Some(NoProviderAccepts), |ps|;
  }

  // ---------------------------------------------------------------------------------------
  // The request handler.

  datatype Outcome = BadRequest | Unauthorized(error: AuthError) | InternalError | Forwarded(url: Url)

  /** The identity a request to the API server is forwarded with: none if it goes out as it came. */
  ghost predicate ForwardedAs(ps: seq<Provider>, before: Headers, after: Headers, ownToken: Option<string>) {
    if ps == [] || HasClientImpersonation(before) then after == before
    else exists i :: 0 <= i < |ps| && FirstToAnswer(ps, BearerToken(before), i)
           && AcceptedBy(ps[i], before, after, ownToken)
  }

  ghost predicate AcceptedBy(p: Provider, before: Headers, after: Headers, ownToken: Option<string>) {
    && p.answer(BearerToken(before)).Authenticated?
    && var assumed := Assumed(p.source, p.answer(BearerToken(before)).user);
      if assumed.None? then after == before
      else ownToken.Some? && CarriesIdentity(before, after, assumed.value, ownToken.value)
  }

  /** All headers are unchanged, or there is the proxy's own token with impersonation headers for
      exactly the user one provider vouched for, and no impersonation header of the client. */
  ghost predicate UnchangedOrImpersonated(
    ps: seq<Provider>, before: Headers, after: Headers, ownToken: Option<string>)
  {
    || after == before
    || (&& ownToken.Some? && !HasClientImpersonation(before)
        && exists i, u :: 0 <= i < |ps| && ps[i].answer(BearerToken(before)) == Authenticated(u)
             && Assumed(ps[i].source, u).Some?
             && CarriesIdentity(before, after, Assumed(ps[i].source, u).value, ownToken.value))
  }

  /** Exactly these groups, in order; no header without groups. */
  ghost predicate HasGroups(h: Headers, groups: seq<string>) {
    if groups == [] then "Impersonate-Group" !in h
    else "Impersonate-Group" in h && h["Impersonate-Group"] == groups
  }

  /**
    The headers a request goes out with for a user that a provider accepted.  The managed cluster
    knows its own users; a service account of the hub goes under a name of its own and any other
    hub user under its name; an OIDC user keeps its name, and its groups are completed by
    system:authenticated if that is not among them.
   */
  ghost predicate HeadersFor(source: Source, u: User, before: Headers, after: Headers) {
    match source
    case ManagedCluster => after == before
    case Hub =>
      && "Impersonate-User" in after
      && after["Impersonate-User"] ==
         [if HasPrefix(u.name, "system:serviceaccount:") then "cluster:hub:" + u.name else u.name]
      && HasGroups(after, u.groups)
    case Oidc =>
      && "Impersonate-User" in after && after["Impersonate-User"] == [u.name]
      && HasGroups(after, if "system:authenticated" in u.groups then u.groups
                          else u.groups + ["system:authenticated"])
  }

  /** The first provider that neither calls the token unknown nor rejects it has accepted a user,
      and the headers are for that user. */
  ghost predicate ForwardedForUser(ps: seq<Provider>, before: Headers, after: Headers) {
    exists i, u :: 0 <= i < |ps|
      && ps[i].answer(BearerToken(before)) == Authenticated(u)
      && (forall j :: 0 <= j < i ==>
            ps[j].answer(BearerToken(before)) == NotAuthenticated || ps[j].answer(BearerToken(before)) == TokenRejected)
      && HeadersFor(ps[i].source, u, before, after)
  }

  lemma AcceptedHeaders(p: Provider, before: Headers, after: Headers, ownToken: Option<string>)
    requires AcceptedBy(p, before, after, ownToken)
    ensures HeadersFor(p.source, p.answer(BearerToken(before)).user, before, after)
  {
  }

  /** Whether authentication lets a request to the API server pass. */
  ghost predicate LetsPass(ps: seq<Provider>, h: Headers, ownToken: Option<string>) {
    || ps == []
    || HasClientImpersonation(h)
    || exists i :: 0 <= i < |ps| && FirstToAnswer(ps, BearerToken(h), i) && CanAccept(ps[i], h, ownToken)
  }

  ghost predicate CanAccept(p: Provider, h: Headers, ownToken: Option<string>) {
    && p.answer(BearerToken(h)).Authenticated?
    && (Assumed(p.source, p.answer(BearerToken(h)).user).None? || ownToken.Some?)
  }

  lemma FirstIsUnique(ps: seq<Provider>, token: string, i: nat, j: nat)
    requires FirstToAnswer(ps, token, i) && FirstToAnswer(ps, token, j)
    ensures i == j
  {
  }

  lemma Refused(ps: seq<Provider>, h: Headers, ownToken: Option<string>, i: nat)
    requires i < |ps| && !HasClientImpersonation(h)
    requires forall j :: 0 <= j < i ==> Rejects(ps[j].answer(BearerToken(h)))
    requires !CanAccept(ps[i], h, ownToken)
    requires Rejects(ps[i].answer(BearerToken(h))) ==> i == |ps| - 1
    ensures !LetsPass(ps, h, ownToken)
  {
    forall k | 0 <= k < |ps| && FirstToAnswer(ps, BearerToken(h), k) ensures k == i {
      assert !Rejects(ps[k].answer(BearerToken(h)));
    }
  }

  lemma Accepted(ps: seq<Provider>, before: Headers, after: Headers, ownToken: Option<string>, i: nat)
    requires i < |ps| && !HasClientImpersonation(before)
    requires FirstToAnswer(ps, BearerToken(before), i) && AcceptedBy(ps[i], before, after, ownToken)
    ensures LetsPass(ps, before, ownToken) && ForwardedAs(ps, before, after, ownToken)
    ensures UnchangedOrImpersonated(ps, before, after, ownToken) && ForwardedForUser(ps, before, after)
  {
    AcceptedHeaders(ps[i], before, after, ownToken);
    assert CanAccept(ps[i], before, ownToken);
    assert ps[i].answer(BearerToken(before)) == Authenticated(ps[i].answer(BearerToken(before)).user);
  }

  /** How a provider is set up: whether it is enabled, and what building it gives, if anything. */
  datatype Factory = Factory(enabled: bool, build: Option<Provider>)

  /** The enabled providers in registry order; nothing if one of them cannot be built. */
  function Built(fs: seq<Factory>): Option<seq<Provider>> {
    if fs == [] then Some([])
    else
      var earlier, f := Built(fs[..|fs| - 1]), fs[|fs| - 1];
      if earlier.None? || !f.enabled then earlier
      else if f.build.None? then None
      else Some(earlier.value + [f.build.value])
  }

  predicate AnyEnabled(fs: seq<Factory>) {
    exists i :: 0 <= i < |fs| && fs[i].enabled
  }

  lemma BuiltSnoc(fs: seq<Factory>, n: nat)
    requires n < |fs|
    ensures Built(fs[..n + 1]) ==
      if Built(fs[..n]).None? || !fs[n].enabled then Built(fs[..n])
      else if fs[n].build.None? then None
      else Some(Built(fs[..n]).value + [fs[n].build.value])
    ensures AnyEnabled(fs[..n + 1]) <==> AnyEnabled(fs[..n]) || fs[n].enabled
  {
    var more := fs[..n + 1];
    assert more[..n] == fs[..n] && more[n] == fs[n];
  }

  /** The first loop: the enabled factories, in order, build what all of them build. */
  method EnabledFactories(factories: seq<Factory>) returns (enabled: seq<Factory>)
    ensures Built(enabled) == Built(factories)
    ensures forall i :: 0 <= i < |enabled| ==> enabled[i].enabled
    ensures enabled == [] <==> !AnyEnabled(factories)
  {
    enabled := [];
    for n := 0 to |factories|
      invariant Built(enabled) == Built(factories[..n])
      invariant forall i :: 0 <= i < |enabled| ==> enabled[i].enabled
      invariant enabled == [] <==> !AnyEnabled(factories[..n])
    {
      BuiltSnoc(factories, n);
      if factories[n].enabled {
        var more := enabled + [factories[n]];
        assert more[..|enabled|] == enabled;
        enabled := more;
      }
    }
    assert factories[..|factories|] == factories;
  }

  /** The second loop: builds one provider after the other and stops at the first failure. */
  method BuildAll(enabled: seq<Factory>) returns (providers: Option<seq<Provider>>)
    requires forall i :: 0 <= i < |enabled| ==> enabled[i].enabled
    ensures providers == Built(enabled)
  {
    var built: seq<Provider> := [];
    for n := 0 to |enabled|
      invariant Built(enabled[..n]) == Some(built)
    {
      BuiltSnoc(enabled, n);
      if enabled[n].build.None? {
        BuiltFails(enabled, n);
        return None;
      }
      built := built + [enabled[n].build.value];
    }
    assert enabled[..|enabled|] == enabled;
    return Some(built);
  }

  class ServiceProxy {
    var authProviders: seq<Provider>
    var transportReady: bool

    constructor ()
      ensures authProviders == [] && !transportReady
    {
      authProviders, transportReady := [], false;
    }

    /**
      The managed cluster first, then every enabled provider in registry order.  The list is
      published all at once: if one provider cannot be built the old list stays.
     */
    method InitializeAuthProviders(managedCluster: Provider, factories: seq<Factory>) returns (ok: bool)
      modifies this`authProviders
      ensures ok <==> Built(factories).Some?
      ensures !ok ==> authProviders == old(authProviders)
      ensures ok && !AnyEnabled(factories) ==> authProviders == []
      ensures ok && AnyEnabled(factories) ==> authProviders == [managedCluster] + Built(factories).value
    {
      var enabled := EnabledFactories(factories);
      if |enabled| == 0 {
        authProviders := [];
        return true;
      }
      var built := BuildAll(enabled);
      if built.None? {
        return false;
      }
      authProviders := [managedCluster] + built.value;
      return true;
    }

    /** The part of the handler for requests to the API server. */
    method Authenticate(req: Request, ownToken: Option<string>) returns (error: Option<AuthError>)
      modifies req`header
      ensures error.None? <==> LetsPass(authProviders, old(req.header), ownToken)
      ensures error.None? ==> ForwardedAs(authProviders, old(req.header), req.header, ownToken)
      ensures error.None? ==> UnchangedOrImpersonated(authProviders, old(req.header), req.header, ownToken)
      ensures error.None? && authProviders != [] && !HasClientImpersonation(old(req.header)) ==>
        ForwardedForUser(authProviders, old(req.header), req.header)
    {
      var clientImpersonation := HasClientImpersonationHeaders(req.header);
      if |authProviders| == 0 || clientImpersonation {
        return None;
      }
      var consulted;
      error, consulted := ProcessAuthentication(authProviders, req, ownToken);
      if error.Some? {
        Refused(authProviders, old(req.header), ownToken, consulted - 1);
      } else {
        Accepted(authProviders, old(req.header), req.header, ownToken, consulted - 1);
      }
    }

    /**
      `parse` stands for the URL parser.  A request to the API server is forwarded either with
      its headers untouched, or with the proxy's own token and exactly the accepted identity;
      a request to any other service is never touched.
     */
    method ServeHTTP(req: Request, parse: Parser, ownToken: Option<string>) returns (out: Outcome)
      modifies req`header
      ensures out == BadRequest <==> GetTargetServiceURLFromRequest(old(req.header), parse).None?
      ensures out.Forwarded? ==>
        && transportReady
        && GetTargetServiceURLFromRequest(old(req.header), parse) == Some(out.url)
      ensures out.Forwarded? && out.url.host == KUBE_API_SERVER_HOST ==>
        && ForwardedAs(authProviders, old(req.header), req.header, ownToken)
        && UnchangedOrImpersonated(authProviders, old(req.header), req.header, ownToken)
        && (authProviders != [] && !HasClientImpersonation(old(req.header)) ==>
              ForwardedForUser(authProviders, old(req.header), req.header))
      ensures out.Forwarded? && out.url.host != KUBE_API_SERVER_HOST ==> req.header == old(req.header)
      ensures out != BadRequest ==>
        (out.Unauthorized? <==>
         && GetTargetServiceURLFromRequest(old(req.header), parse).value.host == KUBE_API_SERVER_HOST
         && !LetsPass(authProviders, old(req.header), ownToken))
      ensures out == InternalError ==> !transportReady
    {
      var url := GetTargetServiceURLFromRequest(req.header, parse);
      if url.None? {
        return BadRequest;
      }
      if url.value.host == KUBE_API_SERVER_HOST {
        var error := Authenticate(req, ownToken);
        if error.Some? {
          return Unauthorized(error.value);
        }
      }
      if !transportReady {
        return InternalError;
      }
      return Forwarded(url.value);
    }
  }

  method HasClientImpersonationHeaders(h: Headers) returns (found: bool)
    ensures found <==> HasClientImpersonation(h)
  {
    var todo := h.Keys;
    while todo != {}
      invariant todo <= h.Keys
      invariant forall key :: key in h && IsImpersonation(key) ==> key in todo
    {
      var key :| key in todo;
      if IsImpersonation(key) {
        return true;
      }
      todo := todo - {key};
    }
    return false;
  }

  lemma {:induction false} BuiltFails(fs: seq<Factory>, n: nat)
    requires n < |fs| && fs[n].enabled && fs[n].build.None?
    ensures Built(fs).None?
  {
    if n < |fs| - 1 {
      BuiltFails(fs[..|fs| - 1], n);
    }
  }

  // ---------------------------------------------------------------------------------------
  // OIDC comes last and so cannot change what the other providers decide.

  /** The default registry is hub then OIDC. */
  lemma OidcIsLast(managedCluster: Provider, hub: Factory, oidc: Factory)
    requires oidc.enabled && Built([hub, oidc]).Some?
    ensures oidc.build.Some? && (hub.enabled ==> hub.build.Some?)
    ensures [managedCluster] + Built([hub, oidc]).value ==
            (if hub.enabled then [managedCluster, hub.build.value] else [managedCluster]) + [oidc.build.value]
  {
    assert [hub, oidc][..1] == [hub];
    assert [hub][..0] == [];
    assert Built([]) == Some([]);
  }

  /** For a token that an earlier provider does not reject, any two states of the last provider
      let the same requests pass and forward the same headers. */
  lemma LastProviderIsIrrelevant(
    ps: seq<Provider>, p: Provider, q: Provider, before: Headers, after: Headers, ownToken: Option<string>)
    requires exists i :: 0 <= i < |ps| && !Rejects(ps[i].answer(BearerToken(before)))
    ensures LetsPass(ps + [p], before, ownToken) <==> LetsPass(ps + [q], before, ownToken)
    ensures ForwardedAs(ps + [p], before, after, ownToken) <==> ForwardedAs(ps + [q], before, after, ownToken)
  {
    var token := BearerToken(before);
    var i := FirstAmong(ps, token);
    forall r ensures FirstToAnswer(ps + [r], token, i) && (ps + [r])[i] == ps[i] {
      assert forall j :: 0 <= j < |ps| ==> (ps + [r])[j] == ps[j];
    }
    SameFirst(ps + [p], ps + [q], before, after, ownToken, i);
    SameFirst(ps + [q], ps + [p], before, after, ownToken, i);
  }

  lemma {:induction false} FirstAmong(ps: seq<Provider>, token: string) returns (i: nat)
    requires exists k :: 0 <= k < |ps| && !Rejects(ps[k].answer(token))
    ensures FirstToAnswer(ps, token, i)
  {
    i := 0;
    while Rejects(ps[i].answer(token))
      invariant i < |ps| && exists k :: i <= k < |ps| && !Rejects(ps[k].answer(token))
      invariant forall j :: 0 <= j < i ==> Rejects(ps[j].answer(token))
      decreases |ps| - i
    {
      i := i + 1;
    }
  }

  lemma SameFirst(
    ps: seq<Provider>, qs: seq<Provider>, before: Headers, after: Headers, ownToken: Option<string>, i: nat)
    requires FirstToAnswer(ps, BearerToken(before), i) && FirstToAnswer(qs, BearerToken(before), i)
    requires ps[i] == qs[i]
    ensures LetsPass(ps, before, ownToken) ==> LetsPass(qs, before, ownToken)
    ensures ForwardedAs(ps, before, after, ownToken) ==> ForwardedAs(qs, before, after, ownToken)
  {
    forall j: nat | FirstToAnswer(ps, BearerToken(before), j) ensures j == i {
      FirstIsUnique(ps, BearerToken(before), i, j);
    }
  }
}
