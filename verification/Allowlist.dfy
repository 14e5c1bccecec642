/** The services the hub lets through, kept up to date from a ConfigMap. */
module Allowlist {
  import opened Wrappers
  import opened Routing

  /** An empty port or protocol matches every port or protocol. */
  datatype ExposedService = ExposedService(namespace: string, service: string, port: string, protocol: string)

  predicate Matches(e: ExposedService, t: Target) {
    && e.namespace == t.namespace
    && e.service == t.service
    && (e.port == "" || e.port == t.port)
    && (e.protocol == "" || e.protocol == t.proto)
  }

  ghost predicate Admits(entries: set<ExposedService>, t: Target) {
    exists e :: e in entries && Matches(e, t)
  }

  function ToSet(s: seq<ExposedService>): set<ExposedService> {
    set e | e in s
  }

  /** A target is let through exactly when one of four entries is listed: its own namespace and
      service, with its own port or none, and its own protocol or none. */
  lemma OneOfFourEntries(entries: set<ExposedService>, t: Target)
    ensures Admits(entries, t) <==>
      exists port, protocol :: port in {"", t.port} && protocol in {"", t.proto}
                               && ExposedService(t.namespace, t.service, port, protocol) in entries
  {
    if e :| e in entries && Matches(e, t) {
      assert e == ExposedService(t.namespace, t.service, e.port, e.protocol);
    }
  }

  // ---------------------------------------------------------------------------------------
  // Parsing.

  /** The strict YAML decoder, which is outside this model. */
  type Decoder = string -> Option<seq<ExposedService>>

  predicate Complete(e: ExposedService) {
    e.namespace != "" && e.service != ""
  }

  /** One value of the ConfigMap: nothing, or entries that all name a namespace and a service. */
  function Parsed(yaml: Decoder, raw: string): Option<seq<ExposedService>> {
    if raw == "" then Some([])
    else if yaml(raw).Some? && forall i :: 0 <= i < |yaml(raw).value| ==> Complete(yaml(raw).value[i])
    then yaml(raw)
    else None
  }

  method ParseExposedServices(yaml: Decoder, raw: string) returns (r: Option<seq<ExposedService>>)
    ensures r == Parsed(yaml, raw)
    ensures raw == "" ==> r == Some([])
    ensures raw != "" ==>
      (r.None? <==> || yaml(raw).None?
                    || exists e :: e in yaml(raw).value && (e.namespace == "" || e.service == ""))
    ensures raw != "" && r.Some? ==> r == yaml(raw)
  {
    if raw == "" {
      return Some([]);
    }
    var services := yaml(raw);
    if services.None? {
      return None;
    }
    for i := 0 to |services.value|
      invariant forall k :: 0 <= k < i ==> Complete(services.value[k])
    {
      if services.value[i].namespace == "" {
        return None;
      }
      if services.value[i].service == "" {
        return None;
      }
    }
    return services;
  }

  /** What a ConfigMap says, without any order of its keys: every value must parse. */
  ghost function Entries(yaml: Decoder, data: map<string, string>): Option<set<ExposedService>> {
    if exists key :: key in data && Parsed(yaml, data[key]).None? then None
    else Some(set key, e | key in data && e in Parsed(yaml, data[key]).value :: e)
  }

  /** The keys are visited in whatever order the map yields them; the outcome is the same. */
  method ParseAllExposedServices(yaml: Decoder, data: map<string, string>)
    returns (r: Option<seq<ExposedService>>)
    ensures r.None? <==> Entries(yaml, data).None?
    ensures r.Some? ==> ToSet(r.value) == Entries(yaml, data).value
  {
    var all: seq<ExposedService> := [];
    var todo := data.Keys;
    while todo != {}
      invariant todo <= data.Keys
      invariant forall key :: key in data.Keys - todo ==> Parsed(yaml, data[key]).Some?
      invariant forall e :: e in all <==> exists key :: key in data.Keys - todo && e in Parsed(yaml, data[key]).value
    {
      var key :| key in todo;
      var services := ParseExposedServices(yaml, data[key]);
      if services.None? {
        return None;
      }
      ghost var before := all;
      all := all + services.value;
      forall e ensures e in all <==> exists k :: k in data.Keys - (todo - {key}) && e in Parsed(yaml, data[k]).value {
        if e in before {
          var k :| k in data.Keys - todo && e in Parsed(yaml, data[k]).value;
          assert k in data.Keys - (todo - {key});
        } else if e in services.value {
          assert key in data.Keys - (todo - {key});
        }
      }
      todo := todo - {key};
    }
    assert data.Keys - todo == data.Keys;
    return Some(all);
  }

  // ---------------------------------------------------------------------------------------
  // The allowlist and its watcher.

  class ServiceAllowlist {
    var services: seq<ExposedService>

    constructor ()
      ensures services == []
    {
      services := [];
    }

    method Update(entries: seq<ExposedService>)
      modifies this
      ensures services == entries
    {
      services := entries;
    }

    method IsAllowed(t: Target) returns (ok: bool)
      ensures ok <==> Admits(ToSet(services), t)
    {
      for i := 0 to |services|
        invariant forall k :: 0 <= k < i ==> !Matches(services[k], t)
      {
        if Matches(services[i], t) {
          assert services[i] in ToSet(services);
          return true;
        }
      }
      return false;
    }
  }

  /** Informer events; an object that is not a ConfigMap carries no data. */
  datatype Event = Added(data: Option<map<string, string>>) | Updated(data: Option<map<string, string>>) | Deleted

  /** The entries an event asks for; nothing when it does not parse. */
  ghost function Wanted(yaml: Decoder, e: Event): Option<set<ExposedService>> {
    if e.Deleted? then Some({})
    else if e.data.None? then None
    else Entries(yaml, e.data.value)
  }

  /** A value that is not a list of entries, or has an entry without a namespace or a service. */
  ghost predicate Malformed(yaml: Decoder, raw: string) {
    && raw != ""
    && (yaml(raw).None? || exists e :: e in yaml(raw).value && (e.namespace == "" || e.service == ""))
  }

  /** One malformed value under any key makes the whole ConfigMap count for nothing; otherwise it
      asks for exactly the entries of all its values. */
  lemma WantedIff(yaml: Decoder, data: map<string, string>, e: ExposedService)
    ensures forall event :: event == Added(Some(data)) || event == Updated(Some(data)) ==>
      && (Wanted(yaml, event).None? <==> exists key :: key in data && Malformed(yaml, data[key]))
      && (Wanted(yaml, event).Some? ==>
            (e in Wanted(yaml, event).value <==>
             exists key :: key in data && data[key] != "" && yaml(data[key]).Some? && e in yaml(data[key]).value))
  {
    forall key | key in data ensures Parsed(yaml, data[key]).None? <==> Malformed(yaml, data[key]) {
      ParsedNoneIff(yaml, data[key]);
    }
  }

  lemma ParsedNoneIff(yaml: Decoder, raw: string)
    ensures Parsed(yaml, raw).None? <==> Malformed(yaml, raw)
    ensures raw != "" && Parsed(yaml, raw).Some? ==> Parsed(yaml, raw) == yaml(raw)
    ensures raw == "" ==> Parsed(yaml, raw) == Some([])
  {
  }

  ghost function InForce(yaml: Decoder, events: seq<Event>): set<ExposedService> {
    if events == [] then {}
    else
      var last := Wanted(yaml, events[|events| - 1]);
      if last.Some? then last.value else InForce(yaml, events[..|events| - 1])
  }

  method Handle(yaml: Decoder, list: ServiceAllowlist, e: Event)
    modifies list
    ensures ToSet(list.services) ==
            if Wanted(yaml, e).Some? then Wanted(yaml, e).value else old(ToSet(list.services))
    ensures e.Deleted? ==> list.services == []
    ensures !e.Deleted? && e.data.None? ==> list.services == old(list.services)
  {
    match e {
      case Deleted =>
        list.Update([]);
      case _ =>
        if e.data.Some? {
          var parsed := ParseAllExposedServices(yaml, e.data.value);
          if parsed.Some? {
            list.Update(parsed.value);
          }
        }
    }
  }

  method Watch(yaml: Decoder, events: seq<Event>) returns (list: ServiceAllowlist)
    ensures fresh(list) && ToSet(list.services) == InForce(yaml, events)
  {
    list := new ServiceAllowlist();
    for n := 0 to |events|
      invariant fresh(list) && ToSet(list.services) == InForce(yaml, events[..n])
    {
      Handle(yaml, list, events[n]);
      assert events[..n + 1][..n] == events[..n];
    }
    assert events[..|events|] == events;
  }

  /** The list in force is the one asked for by the last event that parsed, a deletion counting
      as empty; before any such event nothing is let through. */
  lemma {:induction false} LastGoodEventDecides(yaml: Decoder, events: seq<Event>, i: nat)
    requires i < |events| && Wanted(yaml, events[i]).Some?
    requires forall k :: i < k < |events| ==> Wanted(yaml, events[k]).None?
    ensures InForce(yaml, events) == Wanted(yaml, events[i]).value
  {
    if i < |events| - 1 {
      LastGoodEventDecides(yaml, events[..|events| - 1], i);
    }
  }

  /** Directly after a deletion nothing is let through. */
  lemma DeletionDeniesAll(yaml: Decoder, events: seq<Event>, t: Target)
    ensures !Admits(InForce(yaml, events + [Deleted]), t)
  {
    assert (events + [Deleted])[|events|] == Deleted;
  }

  lemma {:induction false} DenyUntilParsed(yaml: Decoder, events: seq<Event>, t: Target)
    requires forall k :: 0 <= k < |events| ==> Wanted(yaml, events[k]).None?
    ensures !Admits(InForce(yaml, events), t)
  {
    if events != [] {
      DenyUntilParsed(yaml, events[..|events| - 1], t);
    }
  }

  ghost predicate AllComplete(entries: set<ExposedService>) {
    forall e :: e in entries ==> Complete(e)
  }

  /** Whatever the events, the entries in force all name a namespace and a service, so a target
      without either is never let through. */
  lemma {:induction false} InForceIsComplete(yaml: Decoder, events: seq<Event>, t: Target)
    ensures AllComplete(InForce(yaml, events))
    ensures t.namespace == "" || t.service == "" ==> !Admits(InForce(yaml, events), t)
  {
    if events != [] {
      var last := events[|events| - 1];
      InForceIsComplete(yaml, events[..|events| - 1], t);
      if Wanted(yaml, last).Some? {
        forall e | e in Wanted(yaml, last).value ensures Complete(e) {
          var key :| key in last.data.value && e in Parsed(yaml, last.data.value[key]).value;
        }
      }
    }
  }

  // ---------------------------------------------------------------------------------------
  // Any order of the keys.

  /** Parsing with the keys taken in a given order, as one iteration of the map would. */
  function ParseInOrder(yaml: Decoder, data: map<string, string>, order: seq<string>): Option<seq<ExposedService>>
    requires forall key :: key in order ==> key in data
  {
    if order == [] then Some([])
    else if Parsed(yaml, data[order[0]]).None? then None
    else
      var rest := ParseInOrder(yaml, data, order[1..]);
      if rest.None? then None else Some(Parsed(yaml, data[order[0]]).value + rest.value)
  }

  lemma {:induction false} ParseInOrderContents(
    yaml: Decoder, data: map<string, string>, order: seq<string>, e: ExposedService)
    requires forall key :: key in order ==> key in data
    ensures ParseInOrder(yaml, data, order).None? <==>
            exists key :: key in order && Parsed(yaml, data[key]).None?
    ensures ParseInOrder(yaml, data, order).Some? ==>
      (e in ParseInOrder(yaml, data, order).value <==>
       exists key :: key in order && Parsed(yaml, data[key]).Some? && e in Parsed(yaml, data[key]).value)
  {
    if order != [] {
      ParseInOrderContents(yaml, data, order[1..], e);
      assert forall key :: key in order <==> key == order[0] || key in order[1..];
      assert order[0] in order;
    }
  }

  /** Whatever order the keys come in, the same ConfigMaps parse and they let the same targets through. */
  lemma OrderIsIrrelevant(
    yaml: Decoder, data: map<string, string>, order: seq<string>, other: seq<string>, t: Target)
    requires forall key :: key in order <==> key in data
    requires forall key :: key in other <==> key in data
    ensures ParseInOrder(yaml, data, order).Some? <==> ParseInOrder(yaml, data, other).Some?
    ensures ParseInOrder(yaml, data, order).Some? ==>
      (Admits(ToSet(ParseInOrder(yaml, data, order).value), t) <==>
       Admits(ToSet(ParseInOrder(yaml, data, other).value), t))
  {
    var any := ExposedService("", "", "", "");
    ParseInOrderContents(yaml, data, order, any);
    ParseInOrderContents(yaml, data, other, any);
    if ParseInOrder(yaml, data, order).Some? {
      forall e ensures e in ParseInOrder(yaml, data, order).value <==> e in ParseInOrder(yaml, data, other).value {
        ParseInOrderContents(yaml, data, order, e);
        ParseInOrderContents(yaml, data, other, e);
      }
    }
  }
}
