/** From guest Gateways and HTTPRoutes to host ones, internal/syncer/gateway.go. Object references
    occur in five places of a route; N is the kind of name they carry, the guest's or the host's. */
module Routes {
  import opened Wrappers
  import opened Filters
  import opened Names
  import opened Ownership
  import Hostname
  import Ordering
  import Services

  type Resolver = string -> Option<Services.Unresolved>

  // `rest` stands for the port and section name, which are copied.
  datatype Ref<N> = Ref(name: N, kind: Option<string>, ns: Option<string>, rest: string)
  // Header modifiers, redirects and rewrites are literal.
  datatype Filter<N> = ExtensionRef(extension: string) | Mirror(target: Option<Ref<N>>) | Literal(body: string)
  datatype BackendRef<N> = BackendRef(ref: Ref<N>, weight: Option<int>, filters: seq<Filter<N>>)
  datatype Rule<N> = Rule(matches: string, filters: seq<Filter<N>>, backends: seq<BackendRef<N>>)
  datatype GuestRoute = GuestRoute(
    meta: Meta, deleting: bool, hostnames: seq<string>, parents: seq<Ref<string>>, rules: seq<Rule<string>>)

  datatype RouteSpec = RouteSpec(parents: seq<Ref<HostName>>, hostnames: seq<string>, rules: seq<Rule<HostName>>)
  datatype HostRoute = HostRoute(name: HostName, labels: Labels, spec: RouteSpec)

  datatype Refusal =
    | HostRefused(host: string)
    | NoHostname(listener: string) | AddressesRefused(asked: seq<string>) | NoClass
    | NotAGateway(parent: string) | NoParents
    | NotAService(name: string) | CrossNamespace(name: string) | BackendRefused(name: string, why: Services.Unresolved)
    | ExtensionRefused(name: string)

  datatype Result = Result(host: Option<HostRoute>, backends: seq<string>, refusals: seq<Refusal>)

  /* ----- References ----- */

  // What a reference to a backend is refused for.
  function RefusedRef(ns: string, resolve: Resolver, b: Ref<string>): Option<Refusal> {
    if b.kind.Some? && b.kind.value != "Service" then Some(NotAService(b.name))
    else if b.ns.Some? && b.ns.value != ns then Some(CrossNamespace(b.name))
    else if resolve(b.name).Some? then Some(BackendRefused(b.name, resolve(b.name).value))
    else None
  }

  function HostRef(tc: TenantCluster, ns: string, b: Ref<string>): Ref<HostName> {
    Ref(HostObjectName(tc.name, ns, b.name), b.kind, None, b.rest)
  }

  function CarriedFilter(tc: TenantCluster, ns: string, resolve: Resolver, f: Filter<string>): Option<Filter<HostName>> {
    match f
    case ExtensionRef(_) => None
    case Mirror(None) => None
    case Mirror(Some(b)) => if RefusedRef(ns, resolve, b).Some? then None else Some(Mirror(Some(HostRef(tc, ns, b))))
    case Literal(body) => Some(Literal(body))
  }

  function RefusedFilter(ns: string, resolve: Resolver, f: Filter<string>): Option<Refusal> {
    match f
    case ExtensionRef(name) => Some(ExtensionRefused(name))
    case Mirror(Some(b)) => RefusedRef(ns, resolve, b)
    case _ => None
  }

  // The Service a filter that is carried sends traffic to.
  function MirroredName(ns: string, resolve: Resolver, f: Filter<string>): Option<string> {
    if f.Mirror? && f.target.Some? && RefusedRef(ns, resolve, f.target.value).None? then Some(f.target.value.name) else None
  }

  function FilterFn(tc: TenantCluster, ns: string, resolve: Resolver): Filter<string> -> Option<Filter<HostName>> {
    f => CarriedFilter(tc, ns, resolve, f)
  }

  function FilterRefusals(ns: string, resolve: Resolver): Filter<string> -> Option<Refusal> {
    f => RefusedFilter(ns, resolve, f)
  }

  function FilterNames(ns: string, resolve: Resolver): Filter<string> -> Option<string> {
    f => MirroredName(ns, resolve, f)
  }

  function Mirrors(ns: string, resolve: Resolver, filters: seq<Filter<string>>): set<string> {
    set n | n in FilterMap(FilterNames(ns, resolve), filters)
  }

  function CarriedBackend(tc: TenantCluster, ns: string, resolve: Resolver, b: BackendRef<string>): Option<BackendRef<HostName>> {
    if RefusedRef(ns, resolve, b.ref).Some? then None
    else Some(BackendRef(HostRef(tc, ns, b.ref), b.weight, FilterMap(FilterFn(tc, ns, resolve), b.filters)))
  }

  function RefusedBackend(ns: string, resolve: Resolver, b: BackendRef<string>): seq<Refusal> {
    match RefusedRef(ns, resolve, b.ref)
    case Some(why) => [why]
    case None => FilterMap(FilterRefusals(ns, resolve), b.filters)
  }

  function BackendUses(ns: string, resolve: Resolver, b: BackendRef<string>): set<string> {
    if RefusedRef(ns, resolve, b.ref).Some? then {} else {b.ref.name} + Mirrors(ns, resolve, b.filters)
  }

  function BackendFn(tc: TenantCluster, ns: string, resolve: Resolver): BackendRef<string> -> Option<BackendRef<HostName>> {
    b => CarriedBackend(tc, ns, resolve, b)
  }

  function BackendRefusals(ns: string, resolve: Resolver): BackendRef<string> -> seq<Refusal> {
    b => RefusedBackend(ns, resolve, b)
  }

  function BackendNames(ns: string, resolve: Resolver): BackendRef<string> -> set<string> {
    b => BackendUses(ns, resolve, b)
  }

  /* ----- Rules and routes ----- */

  function TranslatedRule(tc: TenantCluster, ns: string, resolve: Resolver, r: Rule<string>): Rule<HostName> {
    Rule(r.matches, FilterMap(FilterFn(tc, ns, resolve), r.filters), FilterMap(BackendFn(tc, ns, resolve), r.backends))
  }

  // A rule that had backends and lost them all is dropped.
  function CarriedRule(tc: TenantCluster, ns: string, resolve: Resolver, r: Rule<string>): Option<Rule<HostName>> {
    var out := TranslatedRule(tc, ns, resolve, r);
    if out.backends != [] || r.backends == [] then Some(out) else None
  }

  function RefusedRule(ns: string, resolve: Resolver, r: Rule<string>): seq<Refusal> {
    FilterMap(FilterRefusals(ns, resolve), r.filters) + FlatMap(BackendRefusals(ns, resolve), r.backends)
  }

  function RuleUses(ns: string, resolve: Resolver, r: Rule<string>): set<string> {
    Mirrors(ns, resolve, r.filters) + UnionMap(BackendNames(ns, resolve), r.backends)
  }

  function RuleFn(tc: TenantCluster, ns: string, resolve: Resolver): Rule<string> -> Option<Rule<HostName>> {
    r => CarriedRule(tc, ns, resolve, r)
  }

  function RuleRefusals(ns: string, resolve: Resolver): Rule<string> -> seq<Refusal> {
    r => RefusedRule(ns, resolve, r)
  }

  function RuleNames(ns: string, resolve: Resolver): Rule<string> -> set<string> {
    r => RuleUses(ns, resolve, r)
  }

  function Unauthorised(tc: TenantCluster): string -> Option<Refusal> {
    h => if Hostname.Allowed(h, tc.allowedDomains) then None else Some(HostRefused(h))
  }

  predicate OtherKind(p: Ref<string>) {
    p.kind.Some? && p.kind.value != "Gateway"
  }

  function ParentNs(p: Ref<string>, ns: string): string {
    if p.ns.Some? then p.ns.value else ns
  }

  function ParentFn(tc: TenantCluster, ns: string): Ref<string> -> Option<Ref<HostName>> {
    (p: Ref<string>) => if OtherKind(p) then None
         else Some(Ref(HostObjectName(tc.name, ParentNs(p, ns), p.name), p.kind, None, p.rest))
  }

  function ParentRefusals(): Ref<string> -> Option<Refusal> {
    (p: Ref<string>) => if OtherKind(p) then Some(NotAGateway(p.name)) else None
  }

  // The stage at which translation of a route ends.
  datatype Stage = NoHosts | Unattached | NoRules | Done

  function StageOf(tc: TenantCluster, guest: GuestRoute, resolve: Resolver): Stage {
    if guest.hostnames != [] && FilterMap(Hostname.Granted(tc.allowedDomains), guest.hostnames) == [] then NoHosts
    else if FilterMap(ParentFn(tc, guest.meta.ns), guest.parents) == [] then Unattached
    else if FilterMap(RuleFn(tc, guest.meta.ns, resolve), guest.rules) == [] then NoRules
    else Done
  }

  function HostRouteFor(tc: TenantCluster, guest: GuestRoute, resolve: Resolver): Option<HostRoute> {
    if StageOf(tc, guest, resolve) != Done then None
    else Some(HostRoute(
      HostObjectName(tc.name, guest.meta.ns, guest.meta.name), OwnershipLabels(tc, guest.meta),
      RouteSpec(FilterMap(ParentFn(tc, guest.meta.ns), guest.parents), FilterMap(Hostname.Granted(tc.allowedDomains), guest.hostnames),
                FilterMap(RuleFn(tc, guest.meta.ns, resolve), guest.rules))))
  }

  function RefusalsFor(tc: TenantCluster, guest: GuestRoute, resolve: Resolver): seq<Refusal> {
    var stage := StageOf(tc, guest, resolve);
    FilterMap(Unauthorised(tc), guest.hostnames)
    + if stage == NoHosts then []
      else
        FilterMap(ParentRefusals(), guest.parents)
        + if stage == Unattached then [NoParents] else FlatMap(RuleRefusals(guest.meta.ns, resolve), guest.rules)
  }

  function UsedNames(tc: TenantCluster, guest: GuestRoute, resolve: Resolver): set<string> {
    if StageOf(tc, guest, resolve) == Done then UnionMap(RuleNames(guest.meta.ns, resolve), guest.rules) else {}
  }

  /* ----- The code ----- */

  /** mapFilters, as it is written. */
  method MapFilters(tc: TenantCluster, ns: string, filters: seq<Filter<string>>, resolve: Resolver)
    returns (out: seq<Filter<HostName>>, backends: seq<string>, refusals: seq<Refusal>)
    ensures out == FilterMap(FilterFn(tc, ns, resolve), filters)
    ensures backends == FilterMap(FilterNames(ns, resolve), filters)
    ensures refusals == FilterMap(FilterRefusals(ns, resolve), filters)
  {
    out, backends, refusals := [], [], [];
    for i := 0 to |filters|
      invariant out == FilterMap(FilterFn(tc, ns, resolve), filters[..i])
      invariant backends == FilterMap(FilterNames(ns, resolve), filters[..i])
      invariant refusals == FilterMap(FilterRefusals(ns, resolve), filters[..i])
    {
      Prefix(filters, i);
      match filters[i] {
        case ExtensionRef(name) => refusals := refusals + [ExtensionRefused(name)];
        case Mirror(None) => continue;
        case Mirror(Some(b)) =>
          if b.kind.Some? && b.kind.value != "Service" {
            refusals := refusals + [NotAService(b.name)];
            continue;
          }
          if b.ns.Some? && b.ns.value != ns {
            refusals := refusals + [CrossNamespace(b.name)];
            continue;
          }
          var why := resolve(b.name);
          if why.Some? {
            refusals := refusals + [BackendRefused(b.name, why.value)];
            continue;
          }
          out := out + [Mirror(Some(Ref(HostObjectName(tc.name, ns, b.name), b.kind, None, b.rest)))];
          backends := backends + [b.name];
        case Literal(body) => out := out + [Literal(body)];
      }
    }
    assert filters[..|filters|] == filters;
  }

  // The backendRefs loop of mapHTTPRoute.
  method MapBackends(tc: TenantCluster, ns: string, backends: seq<BackendRef<string>>, resolve: Resolver)
    returns (out: seq<BackendRef<HostName>>, used: set<string>, refusals: seq<Refusal>)
    ensures out == FilterMap(BackendFn(tc, ns, resolve), backends)
    ensures used == UnionMap(BackendNames(ns, resolve), backends)
    ensures refusals == FlatMap(BackendRefusals(ns, resolve), backends)
  {
    out, used, refusals := [], {}, [];
    for i := 0 to |backends|
      invariant out == FilterMap(BackendFn(tc, ns, resolve), backends[..i])
      invariant used == UnionMap(BackendNames(ns, resolve), backends[..i])
      invariant refusals == FlatMap(BackendRefusals(ns, resolve), backends[..i])
    {
      Prefix(backends, i);
      var b := backends[i];
      if b.ref.kind.Some? && b.ref.kind.value != "Service" {
        refusals := refusals + [NotAService(b.ref.name)];
        continue;
      }
      if b.ref.ns.Some? && b.ref.ns.value != ns {
        refusals := refusals + [CrossNamespace(b.ref.name)];
        continue;
      }
      var why := resolve(b.ref.name);
      if why.Some? {
        refusals := refusals + [BackendRefused(b.ref.name, why.value)];
        continue;
      }
      var filters, names, filterRefusals := MapFilters(tc, ns, b.filters, resolve);
      refusals := refusals + filterRefusals;
      used := used + (set n | n in names) + {b.ref.name};
      out := out + [BackendRef(Ref(HostObjectName(tc.name, ns, b.ref.name), b.ref.kind, None, b.ref.rest), b.weight, filters)];
    }
    assert backends[..|backends|] == backends;
  }

  // The rules loop of mapHTTPRoute.
  method MapRules(tc: TenantCluster, ns: string, guestRules: seq<Rule<string>>, resolve: Resolver)
    returns (rules: seq<Rule<HostName>>, used: set<string>, refusals: seq<Refusal>)
    ensures rules == FilterMap(RuleFn(tc, ns, resolve), guestRules)
    ensures used == UnionMap(RuleNames(ns, resolve), guestRules)
    ensures refusals == FlatMap(RuleRefusals(ns, resolve), guestRules)
  {
    rules, used, refusals := [], {}, [];
    for i := 0 to |guestRules|
      invariant rules == FilterMap(RuleFn(tc, ns, resolve), guestRules[..i])
      invariant used == UnionMap(RuleNames(ns, resolve), guestRules[..i])
      invariant refusals == FlatMap(RuleRefusals(ns, resolve), guestRules[..i])
    {
      Prefix(guestRules, i);
      var rule := guestRules[i];
      var filters, names, filterRefusals := MapFilters(tc, ns, rule.filters, resolve);
      var backends, more, backendRefusals := MapBackends(tc, ns, rule.backends, resolve);
      refusals := refusals + (filterRefusals + backendRefusals);
      used := used + (set n | n in names) + more;
      if |backends| > 0 || |rule.backends| == 0 {
        rules := rules + [Rule(rule.matches, filters, backends)];
      }
    }
    assert guestRules[..|guestRules|] == guestRules;
  }

  method MapHostnames(tc: TenantCluster, guest: seq<string>) returns (hostnames: seq<string>, refusals: seq<Refusal>)
    ensures hostnames == FilterMap(Hostname.Granted(tc.allowedDomains), guest) && refusals == FilterMap(Unauthorised(tc), guest)
  {
    hide FilterMap, Hostname.Allowed;
    hostnames, refusals := [], [];
    FilterNone(Hostname.Granted(tc.allowedDomains));
    FilterNone(Unauthorised(tc));
    for i := 0 to |guest|
      invariant hostnames == FilterMap(Hostname.Granted(tc.allowedDomains), guest[..i]) && refusals == FilterMap(Unauthorised(tc), guest[..i])
    {
      FilterMore(Hostname.Granted(tc.allowedDomains), guest, i);
      FilterMore(Unauthorised(tc), guest, i);
      if Hostname.Allowed(guest[i], tc.allowedDomains) {
        hostnames := hostnames + [guest[i]];
      } else {
        refusals := refusals + [HostRefused(guest[i])];
      }
    }
    assert guest[..|guest|] == guest;
  }

  method MapParents(tc: TenantCluster, ns: string, guest: seq<Ref<string>>)
    returns (parents: seq<Ref<HostName>>, refusals: seq<Refusal>)
    ensures parents == FilterMap(ParentFn(tc, ns), guest) && refusals == FilterMap(ParentRefusals(), guest)
  {
    hide FilterMap, HostObjectName, OtherKind;
    parents, refusals := [], [];
    FilterNone(ParentFn(tc, ns));
    FilterNone(ParentRefusals());
    for i := 0 to |guest|
      invariant parents == FilterMap(ParentFn(tc, ns), guest[..i]) && refusals == FilterMap(ParentRefusals(), guest[..i])
    {
      FilterMore(ParentFn(tc, ns), guest, i);
      FilterMore(ParentRefusals(), guest, i);
      var p := guest[i];
      if OtherKind(p) {
        refusals := refusals + [NotAGateway(p.name)];
        continue;
      }
      var parentNs := ns;
      if p.ns.Some? {
        parentNs := p.ns.value;
      }
      parents := parents + [Ref(HostObjectName(tc.name, parentNs, p.name), p.kind, None, p.rest)];
    }
    assert guest[..|guest|] == guest;
  }

  /** mapHTTPRoute, as it is written: hostnames, parents, rules, each of which can end it. */
  method MapHTTPRoute(tc: TenantCluster, guest: GuestRoute, resolve: Resolver) returns (res: Result)
    ensures res.host == HostRouteFor(tc, guest, resolve)
    ensures res.refusals == RefusalsFor(tc, guest, resolve)
    ensures (set n | n in res.backends) == UsedNames(tc, guest, resolve)
    ensures forall i, j | 0 <= i < j < |res.backends| :: Ordering.LexLess(res.backends[i], res.backends[j])
  {
    var ns := guest.meta.ns;
    var hostnames, refusals := MapHostnames(tc, guest.hostnames);
    if |guest.hostnames| > 0 && |hostnames| == 0 {
      return Result(None, [], refusals);
    }
    var parents, parentRefusals := MapParents(tc, ns, guest.parents);
    if |parents| == 0 {
      return Result(None, [], refusals + (parentRefusals + [NoParents]));
    }
    var rules, backendSet, ruleRefusals := MapRules(tc, ns, guest.rules, resolve);
    refusals := refusals + (parentRefusals + ruleRefusals);
    if |rules| == 0 {
      return Result(None, [], refusals);
    }
    var backends := Ordering.SortedNames(backendSet);
    return Result(Some(HostRoute(HostObjectName(tc.name, ns, guest.meta.name), OwnershipLabels(tc, guest.meta),
                                 RouteSpec(parents, hostnames, rules))), backends, refusals);
  }

  /* ----- What it guarantees ----- */

  // A list of filters in which every reference is the host name of one of the names.
  predicate FiltersClosed(tc: TenantCluster, ns: string, names: set<string>, filters: seq<Filter<HostName>>) {
    forall f | f in filters ::
      !f.ExtensionRef? && (f.Mirror? ==> f.target.Some? && RefClosed(tc, ns, names, f.target.value))
  }

  predicate RefClosed(tc: TenantCluster, ns: string, names: set<string>, b: Ref<HostName>) {
    b.ns.None? && exists n | n in names :: b.name == HostObjectName(tc.name, ns, n)
  }

  lemma FiltersAreClosed(tc: TenantCluster, ns: string, resolve: Resolver, filters: seq<Filter<string>>, names: set<string>)
    requires Mirrors(ns, resolve, filters) <= names
    ensures FiltersClosed(tc, ns, names, FilterMap(FilterFn(tc, ns, resolve), filters))
  {
    forall f | f in FilterMap(FilterFn(tc, ns, resolve), filters)
      ensures !f.ExtensionRef? && (f.Mirror? ==> f.target.Some? && RefClosed(tc, ns, names, f.target.value))
    {
      var from := Origin(FilterFn(tc, ns, resolve), filters, f);
      if f.Mirror? {
        Kept(FilterNames(ns, resolve), filters, from);
        assert from.target.value.name in Mirrors(ns, resolve, filters);
      }
    }
  }

  // Everything a rule of the host route refers to.
  predicate RuleClosed(tc: TenantCluster, ns: string, names: set<string>, r: Rule<HostName>) {
    && FiltersClosed(tc, ns, names, r.filters)
    && forall b | b in r.backends :: RefClosed(tc, ns, names, b.ref) && FiltersClosed(tc, ns, names, b.filters)
  }

  lemma RuleIsClosed(tc: TenantCluster, ns: string, resolve: Resolver, r: Rule<string>, names: set<string>)
    requires RuleUses(ns, resolve, r) <= names
    ensures RuleClosed(tc, ns, names, TranslatedRule(tc, ns, resolve, r))
  {
    FiltersAreClosed(tc, ns, resolve, r.filters, names);
    forall b | b in TranslatedRule(tc, ns, resolve, r).backends
      ensures RefClosed(tc, ns, names, b.ref) && FiltersClosed(tc, ns, names, b.filters)
    {
      var from := Origin(BackendFn(tc, ns, resolve), r.backends, b);
      forall n | n in BackendUses(ns, resolve, from) ensures n in names {
        InUnion(BackendNames(ns, resolve), r.backends, n);
        assert n in BackendNames(ns, resolve)(from);
      }
      FiltersAreClosed(tc, ns, resolve, from.filters, names);
    }
  }

  /** Reference closure: every Service reference of the host route, whether of a rule backend, a
      rule's mirror or a backend's mirror, is the host name of a Service in the backend list; and no
      reference to a host extension survives anywhere. */
  lemma RouteIsClosed(tc: TenantCluster, guest: GuestRoute, resolve: Resolver, r: Rule<HostName>)
    requires HostRouteFor(tc, guest, resolve).Some? && r in HostRouteFor(tc, guest, resolve).value.spec.rules
    ensures RuleClosed(tc, guest.meta.ns, UsedNames(tc, guest, resolve), r)
  {
    var ns := guest.meta.ns;
    var from := Origin(RuleFn(tc, ns, resolve), guest.rules, r);
    forall n | n in RuleUses(ns, resolve, from) ensures n in UsedNames(tc, guest, resolve) {
      InUnion(RuleNames(ns, resolve), guest.rules, n);
      assert n in RuleNames(ns, resolve)(from);
    }
    RuleIsClosed(tc, ns, resolve, from, UsedNames(tc, guest, resolve));
  }

  lemma MirrorsResolve(ns: string, resolve: Resolver, filters: seq<Filter<string>>, n: string)
    requires n in Mirrors(ns, resolve, filters)
    ensures resolve(n).None?
  {
    var _ := Origin(FilterNames(ns, resolve), filters, n);
  }

  /** Every Service in the backend list resolved. */
  lemma ListedResolve(tc: TenantCluster, guest: GuestRoute, resolve: Resolver, n: string)
    requires n in UsedNames(tc, guest, resolve)
    ensures resolve(n).None?
  {
    var ns := guest.meta.ns;
    InUnion(RuleNames(ns, resolve), guest.rules, n);
    var r :| r in guest.rules && n in RuleNames(ns, resolve)(r);
    if n in Mirrors(ns, resolve, r.filters) {
      MirrorsResolve(ns, resolve, r.filters, n);
    } else {
      InUnion(BackendNames(ns, resolve), r.backends, n);
      var b :| b in r.backends && n in BackendNames(ns, resolve)(b);
      if n != b.ref.name { MirrorsResolve(ns, resolve, b.filters, n); }
    }
  }

  // A rule of the guest that does not reach the host.
  predicate Dropped(ns: string, resolve: Resolver, r: Rule<string>) {
    r.backends != [] && forall b | b in r.backends :: RefusedRef(ns, resolve, b.ref).Some?
  }

  lemma DroppedExactly(tc: TenantCluster, ns: string, resolve: Resolver, r: Rule<string>)
    ensures CarriedRule(tc, ns, resolve, r).None? <==> Dropped(ns, resolve, r)
  {
    var f := BackendFn(tc, ns, resolve);
    if b :| b in r.backends && RefusedRef(ns, resolve, b.ref).None? {
      Kept(f, r.backends, b);
    }
    var out := FilterMap(f, r.backends);
    if out != [] {
      var _ := Origin(f, r.backends, out[0]);
    }
  }

  /** The rules of the host route are the guest's, in the guest's order, and a rule is missing exactly
      when it had backends and all of them were refused. */
  lemma RulesInOrder(tc: TenantCluster, guest: GuestRoute, resolve: Resolver) returns (at: seq<nat>)
    ensures var rules := FilterMap(RuleFn(tc, guest.meta.ns, resolve), guest.rules);
            && |at| == |rules|
            && (forall j, k | 0 <= j < k < |at| :: at[j] < at[k])
            && (forall k | 0 <= k < |at| ::
                  at[k] < |guest.rules| && rules[k] == TranslatedRule(tc, guest.meta.ns, resolve, guest.rules[at[k]]))
            && (forall i: nat | i < |guest.rules| :: i !in at <==> Dropped(guest.meta.ns, resolve, guest.rules[i]))
  {
    at := Origins(RuleFn(tc, guest.meta.ns, resolve), guest.rules);
    forall i: nat | i < |guest.rules| ensures i !in at <==> Dropped(guest.meta.ns, resolve, guest.rules[i]) {
      DroppedExactly(tc, guest.meta.ns, resolve, guest.rules[i]);
    }
  }

  // A reference that reaches the host: to a Service, of the object's own namespace, that resolves.
  predicate Reaches(ns: string, resolve: Resolver, b: Ref<string>) {
    && (b.kind.None? || b.kind.value == "Service") && (b.ns.None? || b.ns.value == ns) && resolve(b.name).None?
  }

  // The same reference on the host, where all is in one namespace.
  predicate SameRef(tc: TenantCluster, ns: string, on: Ref<HostName>, b: Ref<string>) {
    on.name == HostObjectName(tc.name, ns, b.name) && on.kind == b.kind && on.ns == None && on.rest == b.rest
  }

  predicate SameFilter(tc: TenantCluster, ns: string, on: Filter<HostName>, f: Filter<string>) {
    match f
    case Literal(body) => on == Literal(body)
    case Mirror(Some(b)) => on.Mirror? && on.target.Some? && SameRef(tc, ns, on.target.value, b)
    case _ => false
  }

  /** The filters on the host are the guest's, in the guest's order: the literal ones as they are, and
      the mirrors to Services that the host can reach. */
  lemma FiltersInOrder(tc: TenantCluster, ns: string, resolve: Resolver, filters: seq<Filter<string>>) returns (at: seq<nat>)
    ensures var out := FilterMap(FilterFn(tc, ns, resolve), filters);
            && |at| == |out| && (forall j, k | 0 <= j < k < |at| :: at[j] < at[k])
            && (forall k | 0 <= k < |at| :: at[k] < |filters| && SameFilter(tc, ns, out[k], filters[at[k]]))
    ensures forall i: nat | i < |filters| ::
              i in at <==> filters[i].Literal? || (filters[i].Mirror? && filters[i].target.Some? && Reaches(ns, resolve, filters[i].target.value))
  {
    hide HostObjectName;
    at := Origins(FilterFn(tc, ns, resolve), filters);
  }

  /** The backends of a rule on the host are the guest's, in the guest's order, each with its weight and
      its filters, and a backend is missing exactly when the host cannot reach it; the matches are the
      guest's. */
  lemma BackendsInOrder(tc: TenantCluster, ns: string, resolve: Resolver, r: Rule<string>) returns (at: seq<nat>)
    ensures var out := TranslatedRule(tc, ns, resolve, r);
            && out.matches == r.matches
            && |at| == |out.backends| && (forall j, k | 0 <= j < k < |at| :: at[j] < at[k])
            && (forall k | 0 <= k < |at| ::
                  && at[k] < |r.backends|
                  && SameRef(tc, ns, out.backends[k].ref, r.backends[at[k]].ref)
                  && out.backends[k].weight == r.backends[at[k]].weight
                  && out.backends[k].filters == FilterMap(FilterFn(tc, ns, resolve), r.backends[at[k]].filters))
    ensures forall i: nat | i < |r.backends| :: i in at <==> Reaches(ns, resolve, r.backends[i].ref)
  {
    hide HostObjectName;
    at := Origins(BackendFn(tc, ns, resolve), r.backends);
  }

  /** Name, owner and parents of a host route: it hangs on the Gateways the guest names, in order, each
      looked up in the namespace the reference gives, or else in the route's; other kinds are left out. */
  lemma ParentsInOrder(tc: TenantCluster, guest: GuestRoute, resolve: Resolver) returns (at: seq<nat>)
    requires HostRouteFor(tc, guest, resolve).Some?
    ensures var host := HostRouteFor(tc, guest, resolve).value;
            && host.name == HostObjectName(tc.name, guest.meta.ns, guest.meta.name) && host.labels == OwnershipLabels(tc, guest.meta)
            && |at| == |host.spec.parents| > 0 && (forall j, k | 0 <= j < k < |at| :: at[j] < at[k])
            && (forall k | 0 <= k < |at| ::
                  && at[k] < |guest.parents|
                  && SameRef(tc, guest.parents[at[k]].ns.UnwrapOr(guest.meta.ns), host.spec.parents[k], guest.parents[at[k]]))
    ensures forall i: nat | i < |guest.parents| :: i in at <==> guest.parents[i].kind.UnwrapOr("Gateway") == "Gateway"
  {
    hide HostObjectName;
    at := Origins(ParentFn(tc, guest.meta.ns), guest.parents);
  }

  /** When there is a host route at all: a hostname is authorised, if there are any; it hangs on a
      Gateway; and a rule is left. */
  lemma RouteExactly(tc: TenantCluster, guest: GuestRoute, resolve: Resolver)
    ensures HostRouteFor(tc, guest, resolve).Some? <==>
              && (guest.hostnames == [] || exists h | h in guest.hostnames :: Hostname.Allowed(h, tc.allowedDomains))
              && (exists p | p in guest.parents :: p.kind.UnwrapOr("Gateway") == "Gateway")
              && exists r | r in guest.rules :: !Dropped(guest.meta.ns, resolve, r)
  {
    hide FilterMap, Hostname.Allowed, HostObjectName;
    var ns := guest.meta.ns;
    NonEmptyExactly(Hostname.Granted(tc.allowedDomains), guest.hostnames);
    NonEmptyExactly(ParentFn(tc, ns), guest.parents);
    NonEmptyExactly(RuleFn(tc, ns, resolve), guest.rules);
    forall r | r in guest.rules ensures RuleFn(tc, ns, resolve)(r).Some? <==> !Dropped(ns, resolve, r) { DroppedExactly(tc, ns, resolve, r); }
  }

  lemma NonEmptyExactly<T, U>(f: T -> Option<U>, s: seq<T>)
    ensures FilterMap(f, s) != [] <==> exists x | x in s :: f(x).Some?
  {
    if FilterMap(f, s) != [] { var _ := Origin(f, s, FilterMap(f, s)[0]); }
    if x :| x in s && f(x).Some? { Kept(f, s, x); }
  }

  // Why a reference, a filter or a rule's parts are refused.
  predicate RefRefused(ns: string, resolve: Resolver, b: Ref<string>, x: Refusal) {
    if b.kind.UnwrapOr("Service") != "Service" then x == NotAService(b.name)
    else if b.ns.UnwrapOr(ns) != ns then x == CrossNamespace(b.name)
    else resolve(b.name).Some? && x == BackendRefused(b.name, resolve(b.name).value)
  }

  predicate FilterRefused(ns: string, resolve: Resolver, f: Filter<string>, x: Refusal) {
    || (f.ExtensionRef? && x == ExtensionRefused(f.extension))
    || (f.Mirror? && f.target.Some? && RefRefused(ns, resolve, f.target.value, x))
  }

  predicate RuleRefused(ns: string, resolve: Resolver, r: Rule<string>, x: Refusal) {
    || (exists f | f in r.filters :: FilterRefused(ns, resolve, f, x))
    || (exists b | b in r.backends :: RefRefused(ns, resolve, b.ref, x))
    || exists b, f | b in r.backends && Reaches(ns, resolve, b.ref) && f in b.filters :: FilterRefused(ns, resolve, f, x)
  }

  lemma FiltersRefused(ns: string, resolve: Resolver, filters: seq<Filter<string>>, x: Refusal)
    ensures x in FilterMap(FilterRefusals(ns, resolve), filters) <==> exists f | f in filters :: FilterRefused(ns, resolve, f, x)
  {
    hide FilterMap;
    InFilter(FilterRefusals(ns, resolve), filters, x);
    forall f | f in filters ensures FilterRefusals(ns, resolve)(f) == Some(x) <==> FilterRefused(ns, resolve, f, x) {}
  }

  lemma BackendRefusedExactly(ns: string, resolve: Resolver, b: BackendRef<string>, x: Refusal)
    ensures x in RefusedBackend(ns, resolve, b) <==>
              || RefRefused(ns, resolve, b.ref, x)
              || (Reaches(ns, resolve, b.ref) && exists f | f in b.filters :: FilterRefused(ns, resolve, f, x))
  {
    hide FilterMap, FilterRefused;
    FiltersRefused(ns, resolve, b.filters, x);
  }

  lemma RuleRefusedExactly(ns: string, resolve: Resolver, r: Rule<string>, x: Refusal)
    ensures x in RefusedRule(ns, resolve, r) <==> RuleRefused(ns, resolve, r, x)
  {
    hide FilterMap, FlatMap, FilterRefused, RefRefused, Reaches, RefusedBackend;
    FiltersRefused(ns, resolve, r.filters, x);
    InFlat(BackendRefusals(ns, resolve), r.backends, x);
    forall b | b in r.backends
      ensures x in BackendRefusals(ns, resolve)(b) <==>
                || RefRefused(ns, resolve, b.ref, x)
                || (Reaches(ns, resolve, b.ref) && exists f | f in b.filters :: FilterRefused(ns, resolve, f, x))
    {
      BackendRefusedExactly(ns, resolve, b, x);
    }
  }

  /** What the guest is told, exactly. A route that ends early, without a hostname or without a parent, is
      told so, and nothing of what comes after. */
  lemma RefusalsExactly(tc: TenantCluster, guest: GuestRoute, resolve: Resolver, x: Refusal)
    ensures var hosts := guest.hostnames == [] || exists h | h in guest.hostnames :: Hostname.Allowed(h, tc.allowedDomains);
            var hangs := exists p | p in guest.parents :: p.kind.UnwrapOr("Gateway") == "Gateway";
            x in RefusalsFor(tc, guest, resolve) <==>
              || (exists h | h in guest.hostnames :: !Hostname.Allowed(h, tc.allowedDomains) && x == HostRefused(h))
              || (hosts && exists p | p in guest.parents :: p.kind.UnwrapOr("Gateway") != "Gateway" && x == NotAGateway(p.name))
              || (hosts && !hangs && x == NoParents)
              || (hosts && hangs && exists r | r in guest.rules :: RuleRefused(guest.meta.ns, resolve, r, x))
  {
    hide FilterMap, FlatMap, Hostname.Allowed, HostObjectName, RefusedRule, RuleRefused;
    var ns := guest.meta.ns;
    NonEmptyExactly(Hostname.Granted(tc.allowedDomains), guest.hostnames);
    NonEmptyExactly(ParentFn(tc, ns), guest.parents);
    InFilter(Unauthorised(tc), guest.hostnames, x);
    InFilter(ParentRefusals(), guest.parents, x);
    InFlat(RuleRefusals(ns, resolve), guest.rules, x);
    forall r | r in guest.rules ensures x in RuleRefusals(ns, resolve)(r) <==> RuleRefused(ns, resolve, r, x) {
      RuleRefusedExactly(ns, resolve, r, x);
    }
  }

  /** Hostnames: in order, authorised one and all, and none at all only if the guest listed none. An
      empty list would attach the route to its listeners' names instead. */
  lemma HostnamesAuthorised(tc: TenantCluster, guest: GuestRoute, resolve: Resolver) returns (at: seq<nat>)
    requires HostRouteFor(tc, guest, resolve).Some?
    ensures var hostnames := HostRouteFor(tc, guest, resolve).value.spec.hostnames;
            && |at| == |hostnames| && (forall j, k | 0 <= j < k < |at| :: at[j] < at[k])
            && (forall k | 0 <= k < |at| :: at[k] < |guest.hostnames| && guest.hostnames[at[k]] == hostnames[k])
            && (forall i: nat | i < |guest.hostnames| :: i in at <==> Hostname.Allowed(guest.hostnames[i], tc.allowedDomains))
            && (hostnames == [] <==> guest.hostnames == [])
  {
    at := Origins(Hostname.Granted(tc.allowedDomains), guest.hostnames);
  }

  /** Filters: what is not carried is refused by name, except a mirror without a target; nothing else
      is lost. */
  lemma FiltersConserved(tc: TenantCluster, ns: string, resolve: Resolver, filters: seq<Filter<string>>)
    requires forall f | f in filters :: f != Mirror(None)
    ensures |FilterMap(FilterFn(tc, ns, resolve), filters)| + |FilterMap(FilterRefusals(ns, resolve), filters)| == |filters|
  {
    Conserved(FilterFn(tc, ns, resolve), FilterRefusals(ns, resolve), filters);
  }

  // Some rule of the route refers to the name.
  ghost predicate Refers(rules: seq<Rule<HostName>>, name: HostName) {
    exists r | r in rules :: RefersIn(r, name)
  }

  ghost predicate RefersIn(r: Rule<HostName>, name: HostName) {
    || MirrorsTo(r.filters, name)
    || exists b | b in r.backends :: b.ref.name == name || MirrorsTo(b.filters, name)
  }

  ghost predicate MirrorsTo(filters: seq<Filter<HostName>>, name: HostName) {
    exists f | f in filters :: f.Mirror? && f.target.Some? && f.target.value.name == name
  }

  /** What the host route refers to is the host name of a Service in the backend list. */
  lemma ReferredIsListed(tc: TenantCluster, guest: GuestRoute, resolve: Resolver, name: HostName) returns (n: string)
    requires HostRouteFor(tc, guest, resolve).Some? && Refers(HostRouteFor(tc, guest, resolve).value.spec.rules, name)
    ensures n in UsedNames(tc, guest, resolve) && name == HostObjectName(tc.name, guest.meta.ns, n)
  {
    var r :| r in HostRouteFor(tc, guest, resolve).value.spec.rules && RefersIn(r, name);
    RouteIsClosed(tc, guest, resolve, r);
    n :| n in UsedNames(tc, guest, resolve) && name == HostObjectName(tc.name, guest.meta.ns, n);
  }

  lemma MirrorsAppear(tc: TenantCluster, ns: string, resolve: Resolver, filters: seq<Filter<string>>, n: string)
    requires n in Mirrors(ns, resolve, filters)
    ensures MirrorsTo(FilterMap(FilterFn(tc, ns, resolve), filters), HostObjectName(tc.name, ns, n))
  {
    var f := Origin(FilterNames(ns, resolve), filters, n);
    Kept(FilterFn(tc, ns, resolve), filters, f);
    assert CarriedFilter(tc, ns, resolve, f).value.target.value.name == HostObjectName(tc.name, ns, n);
  }

  lemma UsesAppear(tc: TenantCluster, ns: string, resolve: Resolver, r: Rule<string>, n: string)
    requires n in RuleUses(ns, resolve, r)
    ensures RefersIn(TranslatedRule(tc, ns, resolve, r), HostObjectName(tc.name, ns, n))
  {
    if n in Mirrors(ns, resolve, r.filters) {
      MirrorsAppear(tc, ns, resolve, r.filters, n);
    } else {
      InUnion(BackendNames(ns, resolve), r.backends, n);
      var b :| b in r.backends && n in BackendNames(ns, resolve)(b);
      Kept(BackendFn(tc, ns, resolve), r.backends, b);
      if n != b.ref.name { MirrorsAppear(tc, ns, resolve, b.filters, n); }
    }
  }

  /** The backend list is tight, with one exception the code makes: a listed Service is referred to by
      the host route, or else it is the mirror of a rule that was dropped. */
  lemma ListedAreUsed(tc: TenantCluster, guest: GuestRoute, resolve: Resolver, n: string)
    requires n in UsedNames(tc, guest, resolve)
    ensures var ns := guest.meta.ns;
            || Refers(HostRouteFor(tc, guest, resolve).value.spec.rules, HostObjectName(tc.name, ns, n))
            || exists r | r in guest.rules :: Dropped(ns, resolve, r) && n in Mirrors(ns, resolve, r.filters)
  {
    var ns := guest.meta.ns;
    InUnion(RuleNames(ns, resolve), guest.rules, n);
    var r :| r in guest.rules && n in RuleNames(ns, resolve)(r);
    DroppedExactly(tc, ns, resolve, r);
    if Dropped(ns, resolve, r) {
      InUnion(BackendNames(ns, resolve), r.backends, n);
    } else {
      UsesAppear(tc, ns, resolve, r, n);
      Kept(RuleFn(tc, ns, resolve), guest.rules, r);
    }
  }

  /* ----- Gateways ----- */

  datatype TLS = TLS(mode: string, certificates: seq<string>)
  datatype Listener = Listener(name: string, hostname: Option<string>, port: int, protocol: string, tls: Option<TLS>)
  datatype GuestGateway = GuestGateway(
    meta: Meta, created: int, deleting: bool, addresses: seq<string>, listeners: seq<Listener>)
  datatype GatewaySpec = GatewaySpec(class_: string, listeners: seq<Listener>)
  datatype HostGateway = HostGateway(name: HostName, labels: Labels, spec: GatewaySpec)

  predicate Named(l: Listener) {
    l.hostname.Some? && l.hostname.value != ""
  }

  function ListenerFn(tc: TenantCluster): Listener -> Option<Listener> {
    l => if !Named(l) || !Hostname.Allowed(l.hostname.value, tc.allowedDomains) then None
         else Some(l.(tls := if l.tls.None? then None else Some(l.tls.value.(certificates := []))))
  }

  function ListenerRefusals(tc: TenantCluster): Listener -> Option<Refusal> {
    l => if !Named(l) then Some(NoHostname(l.name))
         else if !Hostname.Allowed(l.hostname.value, tc.allowedDomains) then Some(HostRefused(l.hostname.value))
         else None
  }

  function NonEmpty(): string -> Option<string> {
    a => if a != "" then Some(a) else None
  }

  function HostGatewayFor(tc: TenantCluster, guest: GuestGateway): Option<HostGateway> {
    var listeners := FilterMap(ListenerFn(tc), guest.listeners);
    if tc.gatewayClass == "" || listeners == [] then None
    else Some(HostGateway(HostObjectName(tc.name, guest.meta.ns, guest.meta.name), OwnershipLabels(tc, guest.meta),
                          GatewaySpec(tc.gatewayClass, listeners)))
  }

  function GatewayRefusals(tc: TenantCluster, guest: GuestGateway): seq<Refusal> {
    if tc.gatewayClass == "" then [NoClass]
    else
      (if guest.addresses == [] then [] else [AddressesRefused(FilterMap(NonEmpty(), guest.addresses))])
      + FilterMap(ListenerRefusals(tc), guest.listeners)
  }

  method AskedAddresses(addresses: seq<string>) returns (asked: seq<string>)
    ensures asked == FilterMap(NonEmpty(), addresses)
  {
    asked := [];
    for i := 0 to |addresses|
      invariant asked == FilterMap(NonEmpty(), addresses[..i])
    {
      Prefix(addresses, i);
      if addresses[i] != "" {
        asked := asked + [addresses[i]];
      }
    }
    assert addresses[..|addresses|] == addresses;
  }

  // The listeners loop of mapGateway.
  method MapListeners(tc: TenantCluster, guest: seq<Listener>) returns (listeners: seq<Listener>, refusals: seq<Refusal>)
    ensures listeners == FilterMap(ListenerFn(tc), guest) && refusals == FilterMap(ListenerRefusals(tc), guest)
  {
    listeners, refusals := [], [];
    for i := 0 to |guest|
      invariant listeners == FilterMap(ListenerFn(tc), guest[..i]) && refusals == FilterMap(ListenerRefusals(tc), guest[..i])
    {
      Prefix(guest, i);
      var l := guest[i];
      if l.hostname.None? || l.hostname.value == "" {
        refusals := refusals + [NoHostname(l.name)];
        continue;
      }
      if !Hostname.Allowed(l.hostname.value, tc.allowedDomains) {
        refusals := refusals + [HostRefused(l.hostname.value)];
        continue;
      }
      if l.tls.Some? {
        l := l.(tls := Some(l.tls.value.(certificates := [])));
      }
      listeners := listeners + [l];
    }
    assert guest[..|guest|] == guest;
  }

  /** mapGateway, as it is written. */
  method MapGateway(tc: TenantCluster, guest: GuestGateway) returns (host: Option<HostGateway>, refusals: seq<Refusal>)
    ensures host == HostGatewayFor(tc, guest) && refusals == GatewayRefusals(tc, guest)
  {
    if tc.gatewayClass == "" {
      return None, [NoClass];
    }
    refusals := [];
    if |guest.addresses| > 0 {
      var asked := AskedAddresses(guest.addresses);
      refusals := [AddressesRefused(asked)];
    }
    var listeners, listenerRefusals := MapListeners(tc, guest.listeners);
    refusals := refusals + listenerRefusals;
    if |listeners| == 0 {
      return None, refusals;
    }
    return Some(HostGateway(HostObjectName(tc.name, guest.meta.ns, guest.meta.name), OwnershipLabels(tc, guest.meta),
                            GatewaySpec(tc.gatewayClass, listeners))), refusals;
  }

  /** When there is a host Gateway at all, and what the guest is told. */
  lemma GatewayExactly(tc: TenantCluster, guest: GuestGateway, x: Refusal)
    ensures HostGatewayFor(tc, guest).Some? <==>
              && tc.gatewayClass != ""
              && exists l | l in guest.listeners :: l.hostname.UnwrapOr("") != "" && Hostname.Allowed(l.hostname.value, tc.allowedDomains)
    ensures x in GatewayRefusals(tc, guest) <==>
              if tc.gatewayClass == "" then x == NoClass
              else
                || (guest.addresses != [] && x == AddressesRefused(FilterMap(NonEmpty(), guest.addresses)))
                || exists l | l in guest.listeners ::
                     if l.hostname.UnwrapOr("") == "" then x == NoHostname(l.name)
                     else !Hostname.Allowed(l.hostname.value, tc.allowedDomains) && x == HostRefused(l.hostname.value)
  {
    hide FilterMap, Hostname.Allowed, HostObjectName;
    NonEmptyExactly(ListenerFn(tc), guest.listeners);
    InFilter(ListenerRefusals(tc), guest.listeners, x);
  }

  /** Name, owner and listeners of a host Gateway: the listeners are the guest's, in the guest's order,
      each with its name, hostname, port, protocol and TLS mode; one is missing exactly when it names no
      authorised hostname. */
  lemma ListenersInOrder(tc: TenantCluster, guest: GuestGateway) returns (at: seq<nat>)
    requires HostGatewayFor(tc, guest).Some?
    ensures var host := HostGatewayFor(tc, guest).value;
            && host.name == HostObjectName(tc.name, guest.meta.ns, guest.meta.name) && host.labels == OwnershipLabels(tc, guest.meta)
            && |at| == |host.spec.listeners| && (forall j, k | 0 <= j < k < |at| :: at[j] < at[k])
            && (forall k | 0 <= k < |at| ::
                  at[k] < |guest.listeners|
                  && var l, g := host.spec.listeners[k], guest.listeners[at[k]];
                     && l.name == g.name && l.hostname == g.hostname && l.port == g.port && l.protocol == g.protocol
                     && (l.tls.Some? <==> g.tls.Some?) && (g.tls.Some? ==> l.tls.value.mode == g.tls.value.mode))
    ensures forall i: nat | i < |guest.listeners| ::
              i in at <==> guest.listeners[i].hostname.UnwrapOr("") != "" && Hostname.Allowed(guest.listeners[i].hostname.value, tc.allowedDomains)
  {
    hide Hostname.Allowed;
    at := Origins(ListenerFn(tc), guest.listeners);
  }

  /** A host Gateway listens on authorised hostnames only, holds no reference to a guest Secret, and
      has the operator's class; every guest listener is either carried or refused. */
  lemma GatewayAuthorised(tc: TenantCluster, guest: GuestGateway)
    ensures var host := HostGatewayFor(tc, guest);
            && (host.Some? ==>
                  && host.value.spec.class_ == tc.gatewayClass
                  && forall l | l in host.value.spec.listeners ::
                       && l.hostname.Some? && Hostname.Allowed(l.hostname.value, tc.allowedDomains)
                       && (l.tls.Some? ==> l.tls.value.certificates == []))
            && (host.Some? ==>
                  |host.value.spec.listeners| + |GatewayRefusals(tc, guest)|
                  == |guest.listeners| + if guest.addresses == [] then 0 else 1)
  {
    Conserved(ListenerFn(tc), ListenerRefusals(tc), guest.listeners);
    if HostGatewayFor(tc, guest).Some? {
      forall l | l in HostGatewayFor(tc, guest).value.spec.listeners
        ensures l.hostname.Some? && Hostname.Allowed(l.hostname.value, tc.allowedDomains)
        ensures l.tls.Some? ==> l.tls.value.certificates == []
      {
        var _ := Origin(ListenerFn(tc), guest.listeners, l);
      }
    }
  }
}
