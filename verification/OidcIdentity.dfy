/** Which identities an OIDC token can be mapped to, and what they become. */
module OidcIdentity {
  import opened Wrappers
  import opened Strings
  import opened AuthChain

  datatype Options = Options(
    issuerURL: string, usernameClaim: string, usernamePrefix: string,
    groupsClaim: string, groupsPrefix: string, reservedNamePrefixes: seq<string>)

  /** Claims other than email are namespaced by the issuer unless a prefix is given; "-" means none. */
  function EffectiveUsernamePrefix(o: Options): string {
    var prefix := if o.usernamePrefix == "" && o.usernameClaim != "email" then o.issuerURL + "#" else o.usernamePrefix;
    if prefix == "-" then "" else prefix
  }

  function UsernameOf(o: Options, claim: string): string {
    EffectiveUsernamePrefix(o) + claim
  }

  /** A username is the bare claim exactly when prefixing is switched off, or for unprefixed email. */
  lemma BareUsernameIff(o: Options, claim: string)
    ensures UsernameOf(o, claim) == claim <==>
            o.usernamePrefix == "-" || (o.usernamePrefix == "" && o.usernameClaim == "email")
  {
    var prefix := EffectiveUsernamePrefix(o);
    assert |UsernameOf(o, claim)| == |prefix| + |claim|;
    assert o.issuerURL + "#" != "-" by {
      assert (o.issuerURL + "#")[|o.issuerURL|] == '#';
    }
    if prefix == "" {
      assert "" + claim == claim;
    }
  }

  /** What a claim becomes, for every setting of the prefix. */
  lemma UsernameIs(o: Options, claim: string)
    ensures o.usernamePrefix == "-" ==> UsernameOf(o, claim) == claim
    ensures o.usernamePrefix != "" && o.usernamePrefix != "-" ==> UsernameOf(o, claim) == o.usernamePrefix + claim
    ensures o.usernamePrefix == "" && o.usernameClaim == "email" ==> UsernameOf(o, claim) == claim
    ensures o.usernamePrefix == "" && o.usernameClaim != "email" ==>
      UsernameOf(o, claim) == o.issuerURL + "#" + claim
  {
    assert "" + claim == claim;
    assert (o.issuerURL + "#")[|o.issuerURL|] == '#';
  }

  /** Namespaced by their issuers, users of two issuers never share a name, and one issuer's
      users keep theirs apart, provided that the issuer URLs contain no '#'. */
  lemma IssuersKeepNamesApart(o: Options, p: Options, x: string, y: string)
    requires o.usernamePrefix == "" && o.usernameClaim != "email" && !Has(o.issuerURL, '#')
    requires p.usernamePrefix == "" && p.usernameClaim != "email" && !Has(p.issuerURL, '#')
    ensures UsernameOf(o, x) == UsernameOf(p, y) <==> o.issuerURL == p.issuerURL && x == y
  {
    assert UsernameOf(o, x) == o.issuerURL + ['#'] + x by {
      assert (o.issuerURL + "#")[|o.issuerURL|] == '#';
    }
    assert UsernameOf(p, y) == p.issuerURL + ['#'] + y by {
      assert (p.issuerURL + "#")[|p.issuerURL|] == '#';
    }
    SplitFirst(o.issuerURL, '#', x);
    SplitFirst(p.issuerURL, '#', y);
    if UsernameOf(o, x) == UsernameOf(p, y) {
      assert o.issuerURL == Split(UsernameOf(o, x), '#')[0] == p.issuerURL;
      assert x == UsernameOf(o, x)[|o.issuerURL| + 1..] == y;
    }
  }

  datatype Rule = UsernameAvoids(prefix: string) | GroupsAvoid(prefix: string)

  predicate Satisfies(r: Rule, u: User) {
    match r
    case UsernameAvoids(p) => !HasPrefix(u.name, p)
    case GroupsAvoid(p) => forall i :: 0 <= i < |u.groups| ==> !HasPrefix(u.groups[i], p)
  }

  ghost predicate Passes(rules: seq<Rule>, u: User) {
    forall i :: 0 <= i < |rules| ==> Satisfies(rules[i], u)
  }

  ghost predicate Reserved(prefixes: seq<string>, name: string) {
    exists i :: 0 <= i < |prefixes| && HasPrefix(name, prefixes[i])
  }

  /** Two rules for every reserved prefix; together they mean that no name has one. */
  method UserValidationRules(o: Options) returns (rules: seq<Rule>)
    ensures rules == RulesFor(o.reservedNamePrefixes)
    ensures forall u :: Passes(rules, u) <==>
      !Reserved(o.reservedNamePrefixes, u.name)
      && forall g :: g in u.groups ==> !Reserved(o.reservedNamePrefixes, g)
  {
    rules := [];
    for n := 0 to |o.reservedNamePrefixes|
      invariant rules == RulesFor(o.reservedNamePrefixes[..n])
    {
      var prefix := o.reservedNamePrefixes[n];
      rules := rules + [UsernameAvoids(prefix), GroupsAvoid(prefix)];
      assert o.reservedNamePrefixes[..n + 1][..n] == o.reservedNamePrefixes[..n];
    }
    assert o.reservedNamePrefixes[..|o.reservedNamePrefixes|] == o.reservedNamePrefixes;
    forall u ensures Passes(rules, u) <==>
      !Reserved(o.reservedNamePrefixes, u.name)
      && forall g :: g in u.groups ==> !Reserved(o.reservedNamePrefixes, g)
    {
      RulesMeanUnreserved(o.reservedNamePrefixes, u);
    }
  }

  function RulesFor(prefixes: seq<string>): seq<Rule> {
    if prefixes == [] then []
    else
      var p := prefixes[|prefixes| - 1];
      RulesFor(prefixes[..|prefixes| - 1]) + [UsernameAvoids(p), GroupsAvoid(p)]
  }

  lemma {:induction false} RulesMeanUnreserved(prefixes: seq<string>, u: User)
    ensures Passes(RulesFor(prefixes), u) <==>
      !Reserved(prefixes, u.name) && forall g :: g in u.groups ==> !Reserved(prefixes, g)
  {
    if prefixes != [] {
      var earlier, p := prefixes[..|prefixes| - 1], prefixes[|prefixes| - 1];
      RulesMeanUnreserved(earlier, u);
      var more := [UsernameAvoids(p), GroupsAvoid(p)];
      PassesConcat(RulesFor(earlier), more, u);
      assert Passes(more, u) <==> Satisfies(more[0], u) && Satisfies(more[1], u);
      assert Satisfies(more[1], u) <==> forall g :: g in u.groups ==> !HasPrefix(g, p);
      forall name ensures Reserved(prefixes, name) <==> Reserved(earlier, name) || HasPrefix(name, p) {
        ReservedSnoc(prefixes, name);
      }
    }
  }

  lemma ReservedSnoc(prefixes: seq<string>, name: string)
    requires prefixes != []
    ensures Reserved(prefixes, name) <==>
            Reserved(prefixes[..|prefixes| - 1], name) || HasPrefix(name, prefixes[|prefixes| - 1])
  {
    var earlier := prefixes[..|prefixes| - 1];
    if i :| 0 <= i < |earlier| && HasPrefix(name, earlier[i]) {
      assert prefixes[i] == earlier[i];
    }
    if i :| 0 <= i < |prefixes| && HasPrefix(name, prefixes[i]) {
      assert i < |earlier| ==> earlier[i] == prefixes[i];
    }
  }

  lemma PassesConcat(a: seq<Rule>, b: seq<Rule>, u: User)
    ensures Passes(a + b, u) <==> Passes(a, u) && Passes(b, u)
  {
    if Passes(a + b, u) {
      forall i | 0 <= i < |a| ensures Satisfies(a[i], u) {
        assert Satisfies((a + b)[i], u);
      }
      forall i | 0 <= i < |b| ensures Satisfies(b[i], u) {
        assert Satisfies((a + b)[|a| + i], u);
      }
    }
  }

  /**
    With "system:" reserved, an identity that passes the rules is forwarded with its groups
    unchanged, followed by exactly one system:authenticated, and neither its name nor any
    group of its own has a reserved prefix.
   */
  lemma ReservedNamesStayReserved(o: Options, u: User)
    requires "system:" in o.reservedNamePrefixes && Passes(RulesFor(o.reservedNamePrefixes), u)
    ensures Assumed(Oidc, u) == Some(User(u.name, u.groups + [ALL_AUTHENTICATED]))
    ensures ALL_AUTHENTICATED !in u.groups
    ensures !Reserved(o.reservedNamePrefixes, u.name)
    ensures forall g :: g in u.groups ==> !Reserved(o.reservedNamePrefixes, g)
  {
    RulesMeanUnreserved(o.reservedNamePrefixes, u);
    var i :| 0 <= i < |o.reservedNamePrefixes| && o.reservedNamePrefixes[i] == "system:";
    assert HasPrefix(ALL_AUTHENTICATED, o.reservedNamePrefixes[i]) by {
      assert ALL_AUTHENTICATED[..7] == "system:";
    }
    assert Reserved(o.reservedNamePrefixes, ALL_AUTHENTICATED);
  }

  /** An empty reserved prefix would refuse everybody, which is why it is not accepted. */
  lemma EmptyPrefixRefusesAll(prefixes: seq<string>, u: User)
    requires "" in prefixes
    ensures !Passes(RulesFor(prefixes), u)
  {
    RulesMeanUnreserved(prefixes, u);
    var i :| 0 <= i < |prefixes| && prefixes[i] == "";
    assert HasPrefix(u.name, prefixes[i]);
  }
}
