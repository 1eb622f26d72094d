/** From a guest Ingress to a host Ingress, internal/syncer/ingress.go. */
module Ingresses {
  import opened Wrappers
  import opened Filters
  import opened Names
  import opened Ownership
  import Hostname
  import Ordering
  import Services

  datatype Backend = Backend(service: string, port: string)
  // `service` is absent for a resource backend.
  datatype Path = Path(path: string, pathType: string, service: Option<Backend>)
  datatype Rule = Rule(host: string, http: Option<seq<Path>>)
  datatype GuestIngress = GuestIngress(
    meta: Meta, deleting: bool, defaultBackend: bool, rules: seq<Rule>, tls: seq<seq<string>>)

  datatype HostPath = HostPath(path: string, pathType: string, service: HostName, port: string)
  datatype HostRule = HostRule(host: string, paths: seq<HostPath>)
  datatype IngressSpec = IngressSpec(class_: Option<string>, rules: seq<HostRule>, tls: seq<seq<string>>)
  datatype HostIngress = HostIngress(name: HostName, labels: Labels, spec: IngressSpec)

  datatype Refusal =
    | DefaultBackend
    | HostRefused(host: string)
    | NotAService(path: string, host: string)
    | BackendRefused(path: string, host: string, service: string, why: Services.Unresolved)
    | TLSHostRefused(host: string)

  type Resolver = string -> Option<Services.Unresolved>

  datatype Result = Result(host: Option<HostIngress>, backends: seq<string>, refusals: seq<Refusal>)

  /* ----- What becomes of each part ----- */

  function CarriedPath(tc: TenantCluster, ns: string, resolve: Resolver, p: Path): Option<HostPath> {
    if p.service.None? || resolve(p.service.value.service).Some? then None
    else Some(HostPath(p.path, p.pathType, HostObjectName(tc.name, ns, p.service.value.service), p.service.value.port))
  }

  function RefusedPath(host: string, resolve: Resolver, p: Path): Option<Refusal> {
    if p.service.None? then Some(NotAService(p.path, host))
    else
      match resolve(p.service.value.service)
      case None => None
      case Some(why) => Some(BackendRefused(p.path, host, p.service.value.service, why))
  }

  function UsedName(resolve: Resolver, p: Path): set<string> {
    if p.service.None? || resolve(p.service.value.service).Some? then {} else {p.service.value.service}
  }

  function PathMap(tc: TenantCluster, ns: string, resolve: Resolver): Path -> Option<HostPath> {
    p => CarriedPath(tc, ns, resolve, p)
  }

  function PathRefusals(host: string, resolve: Resolver): Path -> Option<Refusal> {
    p => RefusedPath(host, resolve, p)
  }

  function PathUses(resolve: Resolver): Path -> set<string> {
    p => UsedName(resolve, p)
  }

  // A rule whose paths are looked at.
  predicate Open(tc: TenantCluster, r: Rule) {
    Hostname.Allowed(r.host, tc.allowedDomains) && r.http.Some?
  }

  function CarriedRule(tc: TenantCluster, ns: string, resolve: Resolver, r: Rule): Option<HostRule> {
    if !Open(tc, r) then None
    else
      var paths := FilterMap(PathMap(tc, ns, resolve), r.http.value);
      if paths == [] then None else Some(HostRule(r.host, paths))
  }

  function RefusedRule(tc: TenantCluster, resolve: Resolver, r: Rule): seq<Refusal> {
    if !Hostname.Allowed(r.host, tc.allowedDomains) then [HostRefused(r.host)]
    else if r.http.None? then []
    else FilterMap(PathRefusals(r.host, resolve), r.http.value)
  }

  function UsedNames(tc: TenantCluster, resolve: Resolver, r: Rule): set<string> {
    if Open(tc, r) then UnionMap(PathUses(resolve), r.http.value) else {}
  }

  function RuleMap(tc: TenantCluster, ns: string, resolve: Resolver): Rule -> Option<HostRule> {
    r => CarriedRule(tc, ns, resolve, r)
  }

  function RuleRefusals(tc: TenantCluster, resolve: Resolver): Rule -> seq<Refusal> {
    r => RefusedRule(tc, resolve, r)
  }

  function RuleUses(tc: TenantCluster, resolve: Resolver): Rule -> set<string> {
    r => UsedNames(tc, resolve, r)
  }

  function Unauthorised(tc: TenantCluster): string -> Option<Refusal> {
    h => if Hostname.Allowed(h, tc.allowedDomains) then None else Some(TLSHostRefused(h))
  }

  function TLSMap(tc: TenantCluster): seq<string> -> Option<seq<string>> {
    hosts => if FilterMap(Hostname.Granted(tc.allowedDomains), hosts) == [] then None else Some(FilterMap(Hostname.Granted(tc.allowedDomains), hosts))
  }

  function TLSRefusals(tc: TenantCluster): seq<string> -> seq<Refusal> {
    hosts => FilterMap(Unauthorised(tc), hosts)
  }

  function HostRules(tc: TenantCluster, guest: GuestIngress, resolve: Resolver): seq<HostRule> {
    FilterMap(RuleMap(tc, guest.meta.ns, resolve), guest.rules)
  }

  function HostIngressFor(tc: TenantCluster, guest: GuestIngress, resolve: Resolver): Option<HostIngress> {
    var rules := HostRules(tc, guest, resolve);
    if rules == [] then None
    else Some(HostIngress(
      HostObjectName(tc.name, guest.meta.ns, guest.meta.name), OwnershipLabels(tc, guest.meta),
      IngressSpec(if tc.ingressClass == "" then None else Some(tc.ingressClass), rules, FilterMap(TLSMap(tc), guest.tls))))
  }

  function RefusalsFor(tc: TenantCluster, guest: GuestIngress, resolve: Resolver): seq<Refusal> {
    (if guest.defaultBackend then [DefaultBackend] else [])
    + FlatMap(RuleRefusals(tc, resolve), guest.rules)
    + if HostRules(tc, guest, resolve) == [] then [] else FlatMap(TLSRefusals(tc), guest.tls)
  }

  function BackendNames(tc: TenantCluster, guest: GuestIngress, resolve: Resolver): set<string> {
    UnionMap(RuleUses(tc, resolve), guest.rules)
  }

  /* ----- The code ----- */

  // The inner loop of mapIngress.
  method MapPaths(tc: TenantCluster, ns: string, host: string, paths: seq<Path>, resolve: Resolver)
    returns (out: seq<HostPath>, refusals: seq<Refusal>, used: set<string>)
    ensures out == FilterMap(PathMap(tc, ns, resolve), paths)
    ensures refusals == FilterMap(PathRefusals(host, resolve), paths)
    ensures used == UnionMap(PathUses(resolve), paths)
  {
    out, refusals, used := [], [], {};
    for i := 0 to |paths|
      invariant out == FilterMap(PathMap(tc, ns, resolve), paths[..i])
      invariant refusals == FilterMap(PathRefusals(host, resolve), paths[..i])
      invariant used == UnionMap(PathUses(resolve), paths[..i])
    {
      Prefix(paths, i);
      var b := paths[i].service;
      if b.None? {
        refusals := refusals + [NotAService(paths[i].path, host)];
        continue;
      }
      var why := resolve(b.value.service);
      if why.Some? {
        refusals := refusals + [BackendRefused(paths[i].path, host, b.value.service, why.value)];
        continue;
      }
      out := out + [HostPath(paths[i].path, paths[i].pathType, HostObjectName(tc.name, ns, b.value.service), b.value.port)];
      used := used + {b.value.service};
    }
    assert paths[..|paths|] == paths;
  }

  // The TLS loop of mapIngress.
  method MapTLS(tc: TenantCluster, hosts: seq<string>) returns (out: seq<string>, refusals: seq<Refusal>)
    ensures out == FilterMap(Hostname.Granted(tc.allowedDomains), hosts) && refusals == FilterMap(Unauthorised(tc), hosts)
  {
    out, refusals := [], [];
    for i := 0 to |hosts|
      invariant out == FilterMap(Hostname.Granted(tc.allowedDomains), hosts[..i]) && refusals == FilterMap(Unauthorised(tc), hosts[..i])
    {
      Prefix(hosts, i);
      if Hostname.Allowed(hosts[i], tc.allowedDomains) {
        out := out + [hosts[i]];
      } else {
        refusals := refusals + [TLSHostRefused(hosts[i])];
      }
    }
    assert hosts[..|hosts|] == hosts;
  }

  // One rule of mapIngress.
  method MapRule(tc: TenantCluster, ns: string, rule: Rule, resolve: Resolver)
    returns (out: Option<HostRule>, refusals: seq<Refusal>, used: set<string>)
    ensures out == RuleMap(tc, ns, resolve)(rule) && refusals == RuleRefusals(tc, resolve)(rule) && used == RuleUses(tc, resolve)(rule)
  {
    if !Hostname.Allowed(rule.host, tc.allowedDomains) {
      return None, [HostRefused(rule.host)], {};
    }
    if rule.http.None? {
      return None, [], {};
    }
    var paths;
    paths, refusals, used := MapPaths(tc, ns, rule.host, rule.http.value, resolve);
    out := if |paths| > 0 then Some(HostRule(rule.host, paths)) else None;
  }

  // The outer loop of mapIngress.
  method MapRules(tc: TenantCluster, ns: string, rules: seq<Rule>, resolve: Resolver)
    returns (out: seq<HostRule>, refusals: seq<Refusal>, used: set<string>)
    ensures out == FilterMap(RuleMap(tc, ns, resolve), rules)
    ensures refusals == FlatMap(RuleRefusals(tc, resolve), rules)
    ensures used == UnionMap(RuleUses(tc, resolve), rules)
  {
    hide RuleMap, RuleRefusals, RuleUses;
    out, refusals, used := [], [], {};
    for i := 0 to |rules|
      invariant out == FilterMap(RuleMap(tc, ns, resolve), rules[..i])
      invariant refusals == FlatMap(RuleRefusals(tc, resolve), rules[..i])
      invariant used == UnionMap(RuleUses(tc, resolve), rules[..i])
    {
      Prefix(rules, i);
      var rule, ruleRefusals, ruleUsed := MapRule(tc, ns, rules[i], resolve);
      refusals, used := refusals + ruleRefusals, used + ruleUsed;
      if rule.Some? {
        out := out + [rule.value];
      }
    }
    assert rules[..|rules|] == rules;
  }

  // The TLS loops of mapIngress.
  method MapTLSSections(tc: TenantCluster, sections: seq<seq<string>>)
    returns (tls: seq<seq<string>>, refusals: seq<Refusal>)
    ensures tls == FilterMap(TLSMap(tc), sections) && refusals == FlatMap(TLSRefusals(tc), sections)
  {
    tls, refusals := [], [];
    for i := 0 to |sections|
      invariant tls == FilterMap(TLSMap(tc), sections[..i]) && refusals == FlatMap(TLSRefusals(tc), sections[..i])
    {
      Prefix(sections, i);
      var hosts, refused := MapTLS(tc, sections[i]);
      refusals := refusals + refused;
      if |hosts| > 0 {
        tls := tls + [hosts];
      }
    }
    assert sections[..|sections|] == sections;
  }

  /** mapIngress, as it is written: rules, then TLS, then the backends in sorted order. */
  method MapIngress(tc: TenantCluster, guest: GuestIngress, resolve: Resolver) returns (res: Result)
    ensures res.host == HostIngressFor(tc, guest, resolve)
    ensures res.refusals == RefusalsFor(tc, guest, resolve)
    ensures (set n | n in res.backends) == BackendNames(tc, guest, resolve)
    ensures forall i, j | 0 <= i < j < |res.backends| :: Ordering.LexLess(res.backends[i], res.backends[j])
  {
    var refusals := if guest.defaultBackend then [DefaultBackend] else [];
    var rules, ruleRefusals, backendSet := MapRules(tc, guest.meta.ns, guest.rules, resolve);
    refusals := refusals + ruleRefusals;
    var host := None;
    if |rules| > 0 {
      var tls, tlsRefusals := MapTLSSections(tc, guest.tls);
      refusals := refusals + tlsRefusals;
      var class_ := if tc.ingressClass == "" then None else Some(tc.ingressClass);
      host := Some(HostIngress(HostObjectName(tc.name, guest.meta.ns, guest.meta.name), OwnershipLabels(tc, guest.meta),
                               IngressSpec(class_, rules, tls)));
    }
    var backends := Ordering.SortedNames(backendSet);
    res := Result(host, backends, refusals);
  }

  /* ----- What it guarantees ----- */

  /** Every hostname that reaches the host, in a rule or for TLS, is authorised. */
  lemma OnlyAuthorised(tc: TenantCluster, guest: GuestIngress, resolve: Resolver)
    requires HostIngressFor(tc, guest, resolve).Some?
    ensures var spec := HostIngressFor(tc, guest, resolve).value.spec;
            && (forall r | r in spec.rules :: Hostname.Allowed(r.host, tc.allowedDomains))
            && (forall hosts | hosts in spec.tls :: hosts != [] && forall h | h in hosts :: Hostname.Allowed(h, tc.allowedDomains))
  {
    var spec := HostIngressFor(tc, guest, resolve).value.spec;
    forall r | r in spec.rules ensures Hostname.Allowed(r.host, tc.allowedDomains) {
      var _ := Origin(RuleMap(tc, guest.meta.ns, resolve), guest.rules, r);
    }
    forall hosts | hosts in spec.tls ensures hosts != [] && forall h | h in hosts :: Hostname.Allowed(h, tc.allowedDomains) {
      var section := Origin(TLSMap(tc), guest.tls, hosts);
      forall h | h in hosts ensures Hostname.Allowed(h, tc.allowedDomains) {
        var _ := Origin(Hostname.Granted(tc.allowedDomains), section, h);
      }
    }
  }

  // The path names a Service that the host can reach.
  predicate Served(resolve: Resolver, p: Path) {
    p.service.Some? && resolve(p.service.value.service).None?
  }

  // The host path is the guest's, with the Service under its name on the host.
  predicate SamePath(tc: TenantCluster, ns: string, on: HostPath, p: Path) {
    && p.service.Some?
    && on.path == p.path && on.pathType == p.pathType && on.port == p.service.value.port
    && on.service == HostObjectName(tc.name, ns, p.service.value.service)
  }

  /** The paths of a rule on the host are the guest's, in the guest's order, and a path is missing
      exactly when it does not name a Service that the host can reach. */
  lemma PathsInOrder(tc: TenantCluster, ns: string, resolve: Resolver, paths: seq<Path>) returns (at: seq<nat>)
    ensures var out := FilterMap(PathMap(tc, ns, resolve), paths);
            && |at| == |out| && (forall j, k | 0 <= j < k < |at| :: at[j] < at[k])
            && (forall k | 0 <= k < |at| :: at[k] < |paths| && SamePath(tc, ns, out[k], paths[at[k]]))
    ensures forall i: nat | i < |paths| :: i in at <==> Served(resolve, paths[i])
  {
    hide HostObjectName;
    at := Origins(PathMap(tc, ns, resolve), paths);
  }

  /** The host's rules are the guest's, in the guest's order: each comes from a rule of the same
      hostname, later ones from later ones, with what is left of its paths; and a rule is there exactly
      if its hostname is authorised and one of its paths is left. */
  lemma RulesInOrder(tc: TenantCluster, guest: GuestIngress, resolve: Resolver) returns (at: seq<nat>)
    ensures var rules := HostRules(tc, guest, resolve);
            && |at| == |rules|
            && (forall j, k | 0 <= j < k < |at| :: at[j] < at[k])
            && (forall k | 0 <= k < |at| ::
                  && at[k] < |guest.rules| && Open(tc, guest.rules[at[k]]) && rules[k].host == guest.rules[at[k]].host
                  && rules[k].paths == FilterMap(PathMap(tc, guest.meta.ns, resolve), guest.rules[at[k]].http.value))
    ensures forall i: nat | i < |guest.rules| ::
              i in at <==> Open(tc, guest.rules[i]) && exists p | p in guest.rules[i].http.value :: Served(resolve, p)
  {
    var f := RuleMap(tc, guest.meta.ns, resolve);
    at := Origins(f, guest.rules);
    forall i: nat | i < |guest.rules|
      ensures i in at <==> Open(tc, guest.rules[i]) && exists p | p in guest.rules[i].http.value :: Served(resolve, p)
    {
      LeftExactly(tc, guest.meta.ns, resolve, guest.rules[i]);
      assert i in at <==> f(guest.rules[i]).Some?;
    }
  }

  lemma LeftExactly(tc: TenantCluster, ns: string, resolve: Resolver, r: Rule)
    ensures CarriedRule(tc, ns, resolve, r).Some? <==> Open(tc, r) && exists p | p in r.http.value :: Served(resolve, p)
  {
    if Open(tc, r) {
      var f := PathMap(tc, ns, resolve);
      var out := FilterMap(f, r.http.value);
      if out != [] { var _ := Origin(f, r.http.value, out[0]); }
      if p :| p in r.http.value && Served(resolve, p) { Kept(f, r.http.value, p); }
    }
  }

  // What is left of a TLS section: its authorised hostnames, in order.
  ghost predicate AuthorisedPart(tc: TenantCluster, hosts: seq<string>, section: seq<string>) {
    InOrder(hosts, section) && forall h :: h in hosts <==> h in section && Hostname.Allowed(h, tc.allowedDomains)
  }

  /** Name, owner, class and TLS: authorised TLS hostnames do arrive, section by section and in order,
      and a section is missing exactly when none of its hostnames is authorised. */
  lemma TLSInOrder(tc: TenantCluster, guest: GuestIngress, resolve: Resolver) returns (at: seq<nat>)
    requires HostIngressFor(tc, guest, resolve).Some?
    ensures var host := HostIngressFor(tc, guest, resolve).value;
            && host.name == HostObjectName(tc.name, guest.meta.ns, guest.meta.name) && host.labels == OwnershipLabels(tc, guest.meta)
            && (host.spec.class_.Some? <==> tc.ingressClass != "") && (host.spec.class_.Some? ==> host.spec.class_.value == tc.ingressClass)
            && |at| == |host.spec.tls| && (forall j, k | 0 <= j < k < |at| :: at[j] < at[k])
            && (forall k | 0 <= k < |at| :: at[k] < |guest.tls| && AuthorisedPart(tc, host.spec.tls[k], guest.tls[at[k]]))
    ensures forall i: nat | i < |guest.tls| :: i in at <==> exists h | h in guest.tls[i] :: Hostname.Allowed(h, tc.allowedDomains)
  {
    hide InOrder, Hostname.Allowed;
    at := Origins(TLSMap(tc), guest.tls);
    var granted := Hostname.Granted(tc.allowedDomains);
    forall i: nat | i < |guest.tls|
      ensures AuthorisedPart(tc, FilterMap(granted, guest.tls[i]), guest.tls[i])
      ensures i in at <==> exists h | h in guest.tls[i] :: Hostname.Allowed(h, tc.allowedDomains)
    {
      Selection(granted, guest.tls[i]);
      assert i in at <==> TLSMap(tc)(guest.tls[i]).Some?;
      var hosts := FilterMap(granted, guest.tls[i]);
      assert hosts != [] ==> hosts[0] in hosts;
    }
  }

  /** No path disappears silently: in an authorised rule, the paths carried and the refusals written
      for the others add up to the guest's paths. */
  lemma PathsConserved(tc: TenantCluster, guest: GuestIngress, resolve: Resolver, r: Rule)
    requires Open(tc, r)
    ensures |FilterMap(PathMap(tc, guest.meta.ns, resolve), r.http.value)| + |RefusedRule(tc, resolve, r)| == |r.http.value|
  {
    Conserved(PathMap(tc, guest.meta.ns, resolve), PathRefusals(r.host, resolve), r.http.value);
  }

  // Why a path of an authorised rule is refused.
  predicate PathRefused(resolve: Resolver, host: string, p: Path, x: Refusal) {
    if p.service.None? then x == NotAService(p.path, host)
    else
      var why := resolve(p.service.value.service);
      why.Some? && x == BackendRefused(p.path, host, p.service.value.service, why.value)
  }

  predicate RuleRefused(tc: TenantCluster, resolve: Resolver, r: Rule, x: Refusal) {
    if Hostname.Allowed(r.host, tc.allowedDomains) then r.http.Some? && exists p | p in r.http.value :: PathRefused(resolve, r.host, p, x)
    else x == HostRefused(r.host)
  }

  /** What the guest is told, exactly: of a default backend, of every rule whose hostname is not
      authorised, of every path in the others that is not carried, and why; and, if there is a host
      Ingress, of every TLS hostname that is not authorised. */
  lemma RefusalsExactly(tc: TenantCluster, guest: GuestIngress, resolve: Resolver, x: Refusal)
    ensures x in RefusalsFor(tc, guest, resolve) <==>
              || (guest.defaultBackend && x == DefaultBackend)
              || (exists r | r in guest.rules :: RuleRefused(tc, resolve, r, x))
              || (HostIngressFor(tc, guest, resolve).Some?
                  && exists hosts, h | hosts in guest.tls && h in hosts :: !Hostname.Allowed(h, tc.allowedDomains) && x == TLSHostRefused(h))
  {
    hide FilterMap, FlatMap, Hostname.Allowed;
    InFlat(RuleRefusals(tc, resolve), guest.rules, x);
    InFlat(TLSRefusals(tc), guest.tls, x);
    forall r | r in guest.rules ensures x in RuleRefusals(tc, resolve)(r) <==> RuleRefused(tc, resolve, r, x) {
      RuleRefusedExactly(tc, resolve, r, x);
    }
    forall hosts | hosts in guest.tls
      ensures x in TLSRefusals(tc)(hosts) <==> exists h | h in hosts :: !Hostname.Allowed(h, tc.allowedDomains) && x == TLSHostRefused(h)
    {
      InFilter(Unauthorised(tc), hosts, x);
    }
  }

  lemma RuleRefusedExactly(tc: TenantCluster, resolve: Resolver, r: Rule, x: Refusal)
    ensures x in RefusedRule(tc, resolve, r) <==> RuleRefused(tc, resolve, r, x)
  {
    hide FilterMap, Hostname.Allowed;
    if Open(tc, r) {
      InFilter(PathRefusals(r.host, resolve), r.http.value, x);
      forall p | p in r.http.value ensures PathRefusals(r.host, resolve)(p) == Some(x) <==> PathRefused(resolve, r.host, p, x) {}
    }
  }

  /** The backend list is exact: a guest Service is listed if and only if some path of the host
      Ingress came from it. Each resolved, and each host path carries the host name of one listed. */
  lemma BackendsExactly(tc: TenantCluster, guest: GuestIngress, resolve: Resolver, name: string)
    ensures name in BackendNames(tc, guest, resolve) <==>
              && resolve(name).None?
              && exists r, p | r in guest.rules && Open(tc, r) && p in r.http.value :: p.service.Some? && p.service.value.service == name
  {
    InUnion(RuleUses(tc, resolve), guest.rules, name);
    forall r | r in guest.rules && Open(tc, r)
      ensures name in UsedNames(tc, resolve, r) <==>
                resolve(name).None? && exists p | p in r.http.value :: p.service.Some? && p.service.value.service == name
    {
      InUnion(PathUses(resolve), r.http.value, name);
      forall p | p in r.http.value
        ensures name in PathUses(resolve)(p) <==> resolve(name).None? && p.service.Some? && p.service.value.service == name
      {}
    }
  }

  lemma PathsResolve(tc: TenantCluster, guest: GuestIngress, resolve: Resolver, r: HostRule, p: HostPath)
    requires r in HostRules(tc, guest, resolve) && p in r.paths
    ensures exists n | n in BackendNames(tc, guest, resolve) :: p.service == HostObjectName(tc.name, guest.meta.ns, n)
  {
    var from := Origin(RuleMap(tc, guest.meta.ns, resolve), guest.rules, r);
    var path := Origin(PathMap(tc, guest.meta.ns, resolve), from.http.value, p);
    BackendsExactly(tc, guest, resolve, path.service.value.service);
  }

  /** Something to serve means something to route to: the backend list is empty exactly when nothing is
      materialised. */
  lemma BackendsIffHost(tc: TenantCluster, guest: GuestIngress, resolve: Resolver)
    ensures HostIngressFor(tc, guest, resolve).None? <==> BackendNames(tc, guest, resolve) == {}
  {
    var rules := HostRules(tc, guest, resolve);
    if rules != [] {
      var from := Origin(RuleMap(tc, guest.meta.ns, resolve), guest.rules, rules[0]);
      assert rules[0].paths[0] in rules[0].paths;
      PathsResolve(tc, guest, resolve, rules[0], rules[0].paths[0]);
    }
    if n :| n in BackendNames(tc, guest, resolve) {
      BackendsExactly(tc, guest, resolve, n);
      var r, p :| r in guest.rules && Open(tc, r) && p in r.http.value && p.service.Some? && p.service.value.service == n;
      Kept(PathMap(tc, guest.meta.ns, resolve), r.http.value, p);
      Kept(RuleMap(tc, guest.meta.ns, resolve), guest.rules, r);
    }
  }
}
