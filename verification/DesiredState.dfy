/** What a pass wants to exist on the host, internal/syncer/pass.go: gathering the guest's objects,
    making backends for what they route to, and withdrawing endpoints over the address limit. */
module DesiredState {
  import opened Wrappers
  import opened Filters
  import opened Names
  import opened Ownership
  import opened AddressLimit
  import Ordering
  import Services
  import Ingresses
  import Routes

  type GuestKey = (string, string)

  // svcPair and gatewayPair: a guest object and the name of its host object.
  datatype Pair<G> = Pair(guest: G, hostName: HostName)
  type ServicePair = Pair<Services.GuestService>
  type GatewayPair = Pair<Routes.GuestGateway>

  datatype Reason =
    | ServiceRefused(s: Services.Refusal) | IngressRefused(i: Ingresses.Refusal) | RouteRefused(r: Routes.Refusal)
    | OverLimit(limit: int, admitted: nat)

  function KeyOf(m: Meta): GuestKey {
    (m.ns, m.name)
  }

  function RefOf(kind: Kind, m: Meta): ObjRef {
    ObjRef(kind, m.ns, m.name)
  }

  function ServiceClaim(p: ServicePair): Claim {
    Claim(RefOf(ServiceKind, p.guest.meta), p.hostName, p.guest.created, p.guest.meta.uid)
  }

  function GatewayClaim(p: GatewayPair): Claim {
    Claim(RefOf(GatewayKind, p.guest.meta), p.hostName, p.guest.created, p.guest.meta.uid)
  }

  function ClaimsOf(lbs: seq<ServicePair>, gws: seq<GatewayPair>): seq<Claim> {
    seq(|lbs|, i requires 0 <= i < |lbs| => ServiceClaim(lbs[i])) + seq(|gws|, i requires 0 <= i < |gws| => GatewayClaim(gws[i]))
  }

  // backendResolver: whether the host can reach a guest Service.
  function Resolver(tc: TenantCluster, offered: seq<string>, svcs: map<GuestKey, Services.GuestService>, ns: string)
    : Ingresses.Resolver
  {
    name =>
      if (ns, name) !in svcs then Some(Services.NotFound)
      else if svcs[(ns, name)].deleting then Some(Services.BeingDeleted)
      else
        match Services.HostServiceFor(tc, svcs[(ns, name)], Services.ClusterIP, offered)
        case Ok(_) => None
        case Refused(why) => Some(Services.Unmappable(why))
  }

  // Every Service that a desired Ingress or HTTPRoute routes to is in the set.
  ghost predicate Closed(ingresses: map<HostName, Ingresses.HostIngress>, routes: map<HostName, Routes.HostRoute>, backed: set<HostName>) {
    && (forall k, r, p | k in ingresses && r in ingresses[k].spec.rules && p in r.paths :: p.service in backed)
    && (forall k, n | k in routes && Routes.Refers(routes[k].spec.rules, n) :: n in backed)
  }

  ghost function PairNames<G>(pairs: seq<Pair<G>>): set<HostName> {
    set p | p in pairs :: p.hostName
  }

  // A pair came from a guest Service that can be published under that name.
  predicate Publishes(tc: TenantCluster, offered: seq<string>, svcs: map<GuestKey, Services.GuestService>, p: ServicePair) {
    && KeyOf(p.guest.meta) in svcs && svcs[KeyOf(p.guest.meta)] == p.guest
    && Services.HostServiceFor(tc, p.guest, Services.LoadBalancer, offered).Ok?
    && Services.HostServiceFor(tc, p.guest, Services.LoadBalancer, offered).value.name == p.hostName
  }

  predicate IsPublic(services: map<HostName, Services.HostService>, k: HostName) {
    k in services && services[k].spec.kind == Services.LoadBalancer
  }

  // The LoadBalancer Services wanted are those of the pairs.
  ghost predicate ServicesMatch(services: map<HostName, Services.HostService>, lbs: seq<ServicePair>) {
    && (forall k | k in services :: services[k].name == k)
    && (forall k :: IsPublic(services, k) <==> k in PairNames(lbs))
  }

  function RemoveFirst<G>(pairs: seq<Pair<G>>, name: HostName): seq<Pair<G>> {
    if pairs == [] then []
    else if pairs[0].hostName == name then pairs[1..]
    else [pairs[0]] + RemoveFirst(pairs[1..], name)
  }

  predicate DistinctPairs<G>(pairs: seq<Pair<G>>) {
    forall i, j | 0 <= i < j < |pairs| :: pairs[i].hostName != pairs[j].hostName
  }

  lemma {:induction false} RemovedExactly<G>(pairs: seq<Pair<G>>, name: HostName, p: Pair<G>)
    requires DistinctPairs(pairs)
    ensures p in RemoveFirst(pairs, name) <==> p in pairs && p.hostName != name
  {
    if pairs != [] {
      RemovedExactly(pairs[1..], name, p);
      assert pairs == [pairs[0]] + pairs[1..];
    }
  }

  lemma {:induction false} RemovedDistinct<G>(pairs: seq<Pair<G>>, name: HostName)
    requires DistinctPairs(pairs)
    ensures DistinctPairs(RemoveFirst(pairs, name))
  {
    if pairs != [] && pairs[0].hostName != name {
      RemovedDistinct(pairs[1..], name);
      var rest := RemoveFirst(pairs[1..], name);
      forall k | 0 <= k < |rest| ensures rest[k].hostName != pairs[0].hostName {
        RemovedExactly(pairs[1..], name, rest[k]);
      }
    }
  }

  lemma RemoveStep<G>(pairs: seq<Pair<G>>, name: HostName, i: nat)
    requires i < |pairs|
    ensures pairs[..i] + RemoveFirst(pairs[i..], name)
            == if pairs[i].hostName == name then pairs[..i] + pairs[i + 1..] else pairs[..i + 1] + RemoveFirst(pairs[i + 1..], name)
  {
    assert pairs[i..][1..] == pairs[i + 1..];
    assert pairs[..i + 1] == pairs[..i] + [pairs[i]];
  }

  // The in-place removal of a pair: shift what is behind it.
  method Remove<G>(pairs: seq<Pair<G>>, name: HostName) returns (left: seq<Pair<G>>)
    ensures left == RemoveFirst(pairs, name)
  {
    for i := 0 to |pairs|
      invariant RemoveFirst(pairs, name) == pairs[..i] + RemoveFirst(pairs[i..], name)
    {
      RemoveStep(pairs, name, i);
      if pairs[i].hostName == name {
        return pairs[..i] + pairs[i + 1..];
      }
    }
    assert pairs[..|pairs|] == pairs;
    return pairs;
  }

  lemma ClosedGrows(ingresses: map<HostName, Ingresses.HostIngress>, routes: map<HostName, Routes.HostRoute>,
                    backed: set<HostName>, more: set<HostName>)
    requires Closed(ingresses, routes, backed) && backed <= more
    ensures Closed(ingresses, routes, more)
  {
  }

  lemma PairAdded<G>(pairs: seq<Pair<G>>, p: Pair<G>)
    ensures PairNames(pairs + [p]) == PairNames(pairs) + {p.hostName}
  {
  }

  lemma MatchPublished(services: map<HostName, Services.HostService>, lbs: seq<ServicePair>, guest: Services.GuestService, host: Services.HostService)
    requires ServicesMatch(services, lbs) && host.spec.kind == Services.LoadBalancer
    ensures ServicesMatch(services[host.name := host], lbs + [Pair(guest, host.name)])
  {
    PairAdded(lbs, Pair(guest, host.name));
    var services', lbs' := services[host.name := host], lbs + [Pair(guest, host.name)];
    forall k ensures IsPublic(services', k) <==> k in PairNames(lbs') {
      assert IsPublic(services, k) <==> k in PairNames(lbs);
    }
  }

  lemma MatchBackend(services: map<HostName, Services.HostService>, lbs: seq<ServicePair>, host: Services.HostService)
    requires ServicesMatch(services, lbs) && host.spec.kind != Services.LoadBalancer && host.name !in services
    ensures ServicesMatch(services[host.name := host], lbs)
  {
    forall k ensures IsPublic(services[host.name := host], k) <==> k in PairNames(lbs) {
      assert IsPublic(services, k) <==> k in PairNames(lbs);
    }
  }

  // With a backend for every name listed, a host Ingress joins the desired ones.
  lemma IngressCloses(tc: TenantCluster, guest: Ingresses.GuestIngress, resolve: Ingresses.Resolver, names: seq<string>,
                      ingresses: map<HostName, Ingresses.HostIngress>, routes: map<HostName, Routes.HostRoute>, backed: set<HostName>)
    requires Closed(ingresses, routes, backed) && Ingresses.HostIngressFor(tc, guest, resolve).Some?
    requires (set n | n in names) == Ingresses.BackendNames(tc, guest, resolve)
    requires forall n | n in names && resolve(n).None? :: HostObjectName(tc.name, guest.meta.ns, n) in backed
    ensures var host := Ingresses.HostIngressFor(tc, guest, resolve).value; Closed(ingresses[host.name := host], routes, backed)
  {
    var host := Ingresses.HostIngressFor(tc, guest, resolve).value;
    forall r, p | r in host.spec.rules && p in r.paths ensures p.service in backed {
      Ingresses.PathsResolve(tc, guest, resolve, r, p);
      var n :| n in Ingresses.BackendNames(tc, guest, resolve) && p.service == HostObjectName(tc.name, guest.meta.ns, n);
      Ingresses.BackendsExactly(tc, guest, resolve, n);
      assert n in names;
    }
  }

  lemma RouteCloses(tc: TenantCluster, guest: Routes.GuestRoute, resolve: Routes.Resolver, names: seq<string>,
                    ingresses: map<HostName, Ingresses.HostIngress>, routes: map<HostName, Routes.HostRoute>, backed: set<HostName>)
    requires Closed(ingresses, routes, backed) && Routes.HostRouteFor(tc, guest, resolve).Some?
    requires (set n | n in names) == Routes.UsedNames(tc, guest, resolve)
    requires forall n | n in names && resolve(n).None? :: HostObjectName(tc.name, guest.meta.ns, n) in backed
    ensures var host := Routes.HostRouteFor(tc, guest, resolve).value; Closed(ingresses, routes[host.name := host], backed)
  {
    var host := Routes.HostRouteFor(tc, guest, resolve).value;
    forall name | Routes.Refers(host.spec.rules, name) ensures name in backed {
      var n := Routes.ReferredIsListed(tc, guest, resolve, name);
      Routes.ListedResolve(tc, guest, resolve, n);
      assert n in names;
    }
  }

  // Every pair has its host object among the wanted ones, and its guest object pinned.
  ghost predicate PairsSound(tc: TenantCluster, offered: seq<string>, svcs: map<GuestKey, Services.GuestService>,
                             lbs: seq<ServicePair>, gws: seq<GatewayPair>, gateways: set<HostName>, want: set<ObjRef>)
  {
    && (forall p | p in lbs :: Publishes(tc, offered, svcs, p) && RefOf(ServiceKind, p.guest.meta) in want)
    && gateways == PairNames(gws)
    && (forall p | p in gws ::
          RefOf(GatewayKind, p.guest.meta) in want && p.hostName == HostObjectName(tc.name, p.guest.meta.ns, p.guest.meta.name))
  }

  lemma WantMore(tc: TenantCluster, offered: seq<string>, svcs: map<GuestKey, Services.GuestService>,
                 lbs: seq<ServicePair>, gws: seq<GatewayPair>, gateways: set<HostName>, want: set<ObjRef>, want': set<ObjRef>)
    requires PairsSound(tc, offered, svcs, lbs, gws, gateways, want) && want <= want'
    ensures PairsSound(tc, offered, svcs, lbs, gws, gateways, want')
  {
  }

  /* ----- What a list comes to ----- */

  function IngressMaker(tc: TenantCluster, offered: seq<string>, svcs: map<GuestKey, Services.GuestService>)
    : Ingresses.GuestIngress -> Option<Ingresses.HostIngress>
  {
    (g: Ingresses.GuestIngress) =>
      if g.deleting then None else Ingresses.HostIngressFor(tc, g, Resolver(tc, offered, svcs, g.meta.ns))
  }

  function RouteMaker(tc: TenantCluster, offered: seq<string>, svcs: map<GuestKey, Services.GuestService>)
    : Routes.GuestRoute -> Option<Routes.HostRoute>
  {
    (g: Routes.GuestRoute) =>
      if g.deleting then None else Routes.HostRouteFor(tc, g, Resolver(tc, offered, svcs, g.meta.ns))
  }

  function GatewayMaker(tc: TenantCluster): Routes.GuestGateway -> Option<Routes.HostGateway> {
    (g: Routes.GuestGateway) => if g.deleting then None else Routes.HostGatewayFor(tc, g)
  }

  function IngressRef(g: Ingresses.GuestIngress): ObjRef { RefOf(IngressKind, g.meta) }

  function RouteRef(g: Routes.GuestRoute): ObjRef { RefOf(RouteKind, g.meta) }

  function GatewayRef(g: Routes.GuestGateway): ObjRef { RefOf(GatewayKind, g.meta) }

  function IngressName(h: Ingresses.HostIngress): HostName { h.name }

  function RouteName(h: Routes.HostRoute): HostName { h.name }

  function GatewayName(h: Routes.HostGateway): HostName { h.name }

  // What is written into the status of a guest object.
  type Note = (ObjRef, Reason)

  function Noted(ref: ObjRef, reasons: seq<Reason>): seq<Note> {
    seq(|reasons|, i requires 0 <= i < |reasons| => (ref, reasons[i]))
  }

  function IngressReasons(why: seq<Ingresses.Refusal>): seq<Reason> {
    seq(|why|, i requires 0 <= i < |why| => IngressRefused(why[i]))
  }

  function RouteReasons(why: seq<Routes.Refusal>): seq<Reason> {
    seq(|why|, i requires 0 <= i < |why| => RouteRefused(why[i]))
  }

  function IngressNotes(tc: TenantCluster, offered: seq<string>, svcs: map<GuestKey, Services.GuestService>)
    : Ingresses.GuestIngress -> seq<Note>
  {
    (g: Ingresses.GuestIngress) =>
      if g.deleting then []
      else Noted(IngressRef(g), IngressReasons(Ingresses.RefusalsFor(tc, g, Resolver(tc, offered, svcs, g.meta.ns))))
  }

  function RouteNotes(tc: TenantCluster, offered: seq<string>, svcs: map<GuestKey, Services.GuestService>)
    : Routes.GuestRoute -> seq<Note>
  {
    (g: Routes.GuestRoute) =>
      if g.deleting then []
      else Noted(RouteRef(g), RouteReasons(Routes.RefusalsFor(tc, g, Resolver(tc, offered, svcs, g.meta.ns))))
  }

  function GatewayNotes(tc: TenantCluster): Routes.GuestGateway -> seq<Note> {
    (g: Routes.GuestGateway) => if g.deleting then [] else Noted(GatewayRef(g), RouteReasons(Routes.GatewayRefusals(tc, g)))
  }

  // A Service that asks for an address and is refused one, with the reason.
  predicate RefusedService(tc: TenantCluster, offered: seq<string>, svcs: map<GuestKey, Services.GuestService>, k: GuestKey, x: Note) {
    && k in svcs && Services.WantsLoadBalancer(tc, svcs[k]) && !svcs[k].deleting
    && x.0 == ObjRef(ServiceKind, k.0, k.1) && x.1.ServiceRefused?
    && Services.HostServiceFor(tc, svcs[k], Services.LoadBalancer, offered) == Refused(x.1.s)
  }

  // The guest Services walked so far: what is noted of them.
  ghost predicate NotedExactly(tc: TenantCluster, offered: seq<string>, svcs: map<GuestKey, Services.GuestService>,
                               done: set<GuestKey>, notes: seq<Note>)
  {
    forall x :: x in notes <==> exists k :: k in done && RefusedService(tc, offered, svcs, k, x)
  }

  lemma NotedExactlyMore(tc: TenantCluster, offered: seq<string>, svcs: map<GuestKey, Services.GuestService>,
                         done: set<GuestKey>, notes: seq<Note>, k: GuestKey, notes': seq<Note>)
    requires NotedExactly(tc, offered, svcs, done, notes) && notes <= notes' <= notes + notes'[|notes|..]
    requires forall x :: x in notes'[|notes|..] <==> RefusedService(tc, offered, svcs, k, x)
    ensures NotedExactly(tc, offered, svcs, done + {k}, notes')
  {
    hide RefusedService;
    assert notes' == notes + notes'[|notes|..];
  }

  // What a list is made into, and so needs its finalizer, has it.
  ghost predicate Pins<G, H>(want: set<ObjRef>, list: seq<G>, make: G -> Option<H>, ref: G -> ObjRef) {
    forall g | g in list && make(g).Some? :: ref(g) in want
  }

  function GatewayPairFn(tc: TenantCluster): Routes.GuestGateway -> Option<GatewayPair> {
    (g: Routes.GuestGateway) =>
      if GatewayMaker(tc)(g).Some? then Some(Pair(g, GatewayMaker(tc)(g).value.name)) else None
  }

  function GatewayPairsOf(tc: TenantCluster, gws: seq<Routes.GuestGateway>): seq<GatewayPair> {
    FilterMap(GatewayPairFn(tc), gws)
  }

  lemma GatewayPairsMore(tc: TenantCluster, gws: seq<Routes.GuestGateway>, i: nat)
    requires i < |gws|
    ensures var made := GatewayMaker(tc)(gws[i]);
            GatewayPairsOf(tc, gws[..i + 1]) == GatewayPairsOf(tc, gws[..i]) + if made.Some? then [Pair(gws[i], made.value.name)] else []
  {
    hide GatewayMaker;
    FilterMore(GatewayPairFn(tc), gws, i);
  }

  lemma PinsMore<G, H>(want: set<ObjRef>, want': set<ObjRef>, list: seq<G>, make: G -> Option<H>, ref: G -> ObjRef, i: nat)
    requires i < |list| && Pins(want, list[..i], make, ref) && want <= want' && (make(list[i]).Some? ==> ref(list[i]) in want')
    ensures Pins(want', list[..i + 1], make, ref)
  {
    Prefix(list, i);
  }

  lemma PinsStay<G, H>(want: set<ObjRef>, want': set<ObjRef>, list: seq<G>, make: G -> Option<H>, ref: G -> ObjRef)
    requires Pins(want, list, make, ref) && want <= want'
    ensures Pins(want', list, make, ref)
  {
  }

  // Nothing gets a finalizer but what the list is made into, and the backends that are needed.
  ghost predicate PinsOnly<G, H>(before: set<ObjRef>, want: set<ObjRef>, tc: TenantCluster, svcs: map<GuestKey, Services.GuestService>,
                                 needed: set<HostName>, list: seq<G>, make: G -> Option<H>, ref: G -> ObjRef)
  {
    forall r | r in want ::
      r in before || NeededBackend(tc, svcs, needed, r) || exists g :: g in list && make(g).Some? && ref(g) == r
  }

  lemma PinsOnlyMore<G, H>(before: set<ObjRef>, want: set<ObjRef>, tc: TenantCluster, svcs: map<GuestKey, Services.GuestService>,
                           needed: set<HostName>, want': set<ObjRef>, needed': set<HostName>,
                           list: seq<G>, make: G -> Option<H>, ref: G -> ObjRef, i: nat)
    requires i < |list| && PinsOnly(before, want, tc, svcs, needed, list[..i], make, ref) && needed <= needed'
    requires forall r | r in want' ::
               r in want || NeededBackend(tc, svcs, needed', r) || (make(list[i]).Some? && r == ref(list[i]))
    ensures PinsOnly(before, want', tc, svcs, needed', list[..i + 1], make, ref)
  {
    hide HostObjectName;
    Prefix(list, i);
    forall r | r in want && !NeededBackend(tc, svcs, needed', r)
      ensures r in before || exists g :: g in list[..i + 1] && make(g).Some? && ref(g) == r
    {
      if r !in before {
        var g :| g in list[..i] && make(g).Some? && ref(g) == r;
        assert g in list[..i + 1];
      }
    }
  }

  lemma NothingHeld<G, H>(before: set<ObjRef>, tc: TenantCluster, svcs: map<GuestKey, Services.GuestService>, needed: set<HostName>,
                          make: G -> Option<H>, name: H -> HostName, ref: G -> ObjRef)
    ensures Holds(map[], [], make, name) && Pins(before, [], make, ref)
    ensures PinsOnly(before, before, tc, svcs, needed, [], make, ref)
  {
  }

  // The guest Services walked so far: those that ask for an address have a pair, each one.
  ghost predicate PairsExactly(tc: TenantCluster, offered: seq<string>, svcs: map<GuestKey, Services.GuestService>,
                               done: set<GuestKey>, lbs: seq<ServicePair>)
  {
    && (forall p | p in lbs :: KeyOf(p.guest.meta) in done && AsksAddress(tc, offered, p.guest))
    && (forall k | k in svcs && k in done && AsksAddress(tc, offered, svcs[k]) :: exists p :: p in lbs && p.guest == svcs[k])
    && (forall i, j | 0 <= i < j < |lbs| :: KeyOf(lbs[i].guest.meta) != KeyOf(lbs[j].guest.meta))
  }

  lemma PairsExactlyMore(tc: TenantCluster, offered: seq<string>, svcs: map<GuestKey, Services.GuestService>,
                         done: set<GuestKey>, lbs: seq<ServicePair>, k: GuestKey, name: HostName)
    requires PairsExactly(tc, offered, svcs, done, lbs) && k in svcs && k !in done && KeyOf(svcs[k].meta) == k
    ensures PairsExactly(tc, offered, svcs, done + {k}, if AsksAddress(tc, offered, svcs[k]) then lbs + [Pair(svcs[k], name)] else lbs)
  {
    hide AsksAddress;
    var lbs' := if AsksAddress(tc, offered, svcs[k]) then lbs + [Pair(svcs[k], name)] else lbs;
    forall x | x in svcs && x in done + {k} && AsksAddress(tc, offered, svcs[x]) ensures exists p :: p in lbs' && p.guest == svcs[x] {
      if x == k {
        assert lbs'[|lbs|] in lbs';
      } else {
        var p :| p in lbs && p.guest == svcs[x];
        assert p in lbs';
      }
    }
  }

  lemma NoneAsked(tc: TenantCluster, offered: seq<string>, svcs: map<GuestKey, Services.GuestService>)
    ensures PairsExactly(tc, offered, svcs, {}, []) && NotedExactly(tc, offered, svcs, {}, []) && PairRefs([]) == {}
  {
  }

  lemma PairsPublished(tc: TenantCluster, offered: seq<string>, svcs: map<GuestKey, Services.GuestService>,
                       lbs: seq<ServicePair>, gws: seq<GatewayPair>, gateways: set<HostName>, want: set<ObjRef>, p: ServicePair)
    requires PairsSound(tc, offered, svcs, lbs, gws, gateways, want) && Publishes(tc, offered, svcs, p)
    ensures PairsSound(tc, offered, svcs, lbs + [p], gws, gateways, want + {RefOf(ServiceKind, p.guest.meta)})
    ensures PairRefs(lbs + [p]) == PairRefs(lbs) + {RefOf(ServiceKind, p.guest.meta)}
  {
    hide HostObjectName, Publishes;
  }

  lemma GatewayPaired(tc: TenantCluster, offered: seq<string>, svcs: map<GuestKey, Services.GuestService>,
                      lbs: seq<ServicePair>, gws: seq<GatewayPair>, gateways: set<HostName>, want: set<ObjRef>, p: GatewayPair)
    requires PairsSound(tc, offered, svcs, lbs, gws, gateways, want) && p.hostName == HostObjectName(tc.name, p.guest.meta.ns, p.guest.meta.name)
    ensures PairsSound(tc, offered, svcs, lbs, gws + [p], gateways + {p.hostName}, want + {GatewayRef(p.guest)})
  {
    hide HostObjectName, Publishes;
    PairAdded(gws, p);
  }

  ghost function PairRefs(lbs: seq<ServicePair>): set<ObjRef> {
    set p | p in lbs :: RefOf(ServiceKind, p.guest.meta)
  }

  // What is listed, if its sync is on.
  function InScope<G>(list: seq<G>, sync: bool): seq<G> {
    if sync then list else []
  }

  // A host Service that is what the guest Service of that key becomes.
  predicate Carries(tc: TenantCluster, offered: seq<string>, svcs: map<GuestKey, Services.GuestService>,
                    host: Services.HostService, key: GuestKey)
  {
    key in svcs && Services.HostServiceFor(tc, svcs[key], host.spec.kind, offered) == Ok(host)
  }

  predicate PinnedFor(tc: TenantCluster, offered: seq<string>, svcs: map<GuestKey, Services.GuestService>,
                      host: Services.HostService, want: set<ObjRef>, key: GuestKey)
  {
    Carries(tc, offered, svcs, host, key) && ObjRef(ServiceKind, key.0, key.1) in want
  }

  /** Every wanted Service is published, or a backend that something needs; and it carries a listed guest
      Service, which has its finalizer. */
  ghost predicate Backs(tc: TenantCluster, offered: seq<string>, svcs: map<GuestKey, Services.GuestService>,
                        services: map<HostName, Services.HostService>, needed: set<HostName>, want: set<ObjRef>)
  {
    forall k | k in services ::
      && (services[k].spec.kind == Services.LoadBalancer || (services[k].spec.kind == Services.ClusterIP && k in needed))
      && exists key :: PinnedFor(tc, offered, svcs, services[k], want, key)
  }

  lemma BacksMore(tc: TenantCluster, offered: seq<string>, svcs: map<GuestKey, Services.GuestService>,
                  services: map<HostName, Services.HostService>, needed: set<HostName>, want: set<ObjRef>,
                  needed': set<HostName>, want': set<ObjRef>)
    requires Backs(tc, offered, svcs, services, needed, want) && needed <= needed' && want <= want'
    ensures Backs(tc, offered, svcs, services, needed', want')
  {
    hide Carries;
    forall k | k in services ensures exists key :: PinnedFor(tc, offered, svcs, services[k], want', key) {
      var key :| PinnedFor(tc, offered, svcs, services[k], want, key);
      assert PinnedFor(tc, offered, svcs, services[k], want', key);
    }
  }

  lemma BacksFewer(tc: TenantCluster, offered: seq<string>, svcs: map<GuestKey, Services.GuestService>,
                   services: map<HostName, Services.HostService>, needed: set<HostName>, want: set<ObjRef>, ref: ObjRef)
    requires Backs(tc, offered, svcs, services, needed, want) && ref.kind != ServiceKind
    ensures Backs(tc, offered, svcs, services, needed, want - {ref})
  {
    hide Carries;
    forall k | k in services ensures exists key :: PinnedFor(tc, offered, svcs, services[k], want - {ref}, key) {
      var key :| PinnedFor(tc, offered, svcs, services[k], want, key);
      assert PinnedFor(tc, offered, svcs, services[k], want - {ref}, key);
    }
  }

  lemma BacksOneMore(tc: TenantCluster, offered: seq<string>, svcs: map<GuestKey, Services.GuestService>,
                     services: map<HostName, Services.HostService>, needed: set<HostName>, want: set<ObjRef>,
                     host: Services.HostService, key: GuestKey)
    requires Backs(tc, offered, svcs, services, needed, want) && Carries(tc, offered, svcs, host, key)
    requires host.spec.kind == Services.LoadBalancer || (host.spec.kind == Services.ClusterIP && host.name in needed)
    ensures Backs(tc, offered, svcs, services[host.name := host], needed, want + {ObjRef(ServiceKind, key.0, key.1)})
  {
    var want' := want + {ObjRef(ServiceKind, key.0, key.1)};
    BacksMore(tc, offered, svcs, services, needed, want, needed, want');
    hide Carries;
    assert PinnedFor(tc, offered, svcs, host, want', key);
  }

  // A backend that something needs.
  predicate NeededBackend(tc: TenantCluster, svcs: map<GuestKey, Services.GuestService>, needed: set<HostName>, r: ObjRef) {
    r.kind == ServiceKind && (r.ns, r.name) in svcs && HostObjectName(tc.name, r.ns, r.name) in needed
  }

  // The Services that the translations of the listed objects route to, by their names on the host.
  predicate IngressNeeds(tc: TenantCluster, offered: seq<string>, svcs: map<GuestKey, Services.GuestService>,
                         g: Ingresses.GuestIngress, k: HostName)
  {
    !g.deleting && exists n | n in Ingresses.BackendNames(tc, g, Resolver(tc, offered, svcs, g.meta.ns)) ::
      k == HostObjectName(tc.name, g.meta.ns, n)
  }

  predicate RouteNeeds(tc: TenantCluster, offered: seq<string>, svcs: map<GuestKey, Services.GuestService>,
                       g: Routes.GuestRoute, k: HostName)
  {
    !g.deleting && exists n | n in Routes.UsedNames(tc, g, Resolver(tc, offered, svcs, g.meta.ns)) ::
      k == HostObjectName(tc.name, g.meta.ns, n)
  }

  // The Service asks for an address, and can be given one.
  predicate AsksAddress(tc: TenantCluster, offered: seq<string>, svc: Services.GuestService) {
    Services.WantsLoadBalancer(tc, svc) && !svc.deleting && Services.HostServiceFor(tc, svc, Services.LoadBalancer, offered).Ok?
  }

  // The claim of a listed Service or Gateway that asks for an address.
  ghost predicate Asked(tc: TenantCluster, offered: seq<string>, svcs: map<GuestKey, Services.GuestService>, sync: bool,
                        gws: seq<Routes.GuestGateway>, c: Claim)
  {
    || (sync && exists k :: k in svcs && AsksAddress(tc, offered, svcs[k]) && c == ServiceClaimAt(tc, svcs, k))
    || exists g :: g in gws && GatewayMaker(tc)(g).Some? && c == GatewayClaimOf(tc, g)
  }

  function ServiceClaimAt(tc: TenantCluster, svcs: map<GuestKey, Services.GuestService>, k: GuestKey): Claim
    requires k in svcs
  {
    Claim(ObjRef(ServiceKind, k.0, k.1), HostObjectName(tc.name, k.0, k.1), svcs[k].created, svcs[k].meta.uid)
  }

  function GatewayClaimOf(tc: TenantCluster, g: Routes.GuestGateway): Claim {
    Claim(ObjRef(GatewayKind, g.meta.ns, g.meta.name), HostObjectName(tc.name, g.meta.ns, g.meta.name), g.created, g.meta.uid)
  }

  // The index of the listed Services.
  ghost predicate Lists(svcs: map<GuestKey, Services.GuestService>, list: seq<Services.GuestService>) {
    && (forall svc | svc in list :: KeyOf(svc.meta) in svcs)
    && (forall k | k in svcs :: svcs[k] in list && KeyOf(svcs[k].meta) == k)
  }

  // Some wanted Ingress or HTTPRoute was made from an object that needs the Service.
  ghost predicate Needed(tc: TenantCluster, offered: seq<string>, svcs: map<GuestKey, Services.GuestService>,
                         ings: seq<Ingresses.GuestIngress>, rts: seq<Routes.GuestRoute>, k: HostName)
  {
    || (exists g :: g in ings && IngressNeeds(tc, offered, svcs, g, k))
    || exists g :: g in rts && RouteNeeds(tc, offered, svcs, g, k)
  }

  // What a finalizer is wanted for.
  ghost predicate Justified(tc: TenantCluster, offered: seq<string>, svcs: map<GuestKey, Services.GuestService>, needed: set<HostName>,
                            lbs: seq<ServicePair>, gws: seq<GatewayPair>,
                            ings: seq<Ingresses.GuestIngress>, rts: seq<Routes.GuestRoute>, r: ObjRef)
  {
    || r in PairRefs(lbs)
    || NeededBackend(tc, svcs, needed, r)
    || (exists p :: p in gws && RefOf(GatewayKind, p.guest.meta) == r)
    || (exists g :: g in ings && IngressMaker(tc, offered, svcs)(g).Some? && IngressRef(g) == r)
    || exists g :: g in rts && RouteMaker(tc, offered, svcs)(g).Some? && RouteRef(g) == r
  }

  // No two endpoints share an identity or a name on the host.
  ghost predicate Apart(tc: TenantCluster, svcs: map<GuestKey, Services.GuestService>, gws: seq<Routes.GuestGateway>) {
    && (forall k, k' | k in svcs && k' in svcs && k != k' ::
          svcs[k].meta.uid != svcs[k'].meta.uid && HostObjectName(tc.name, k.0, k.1) != HostObjectName(tc.name, k'.0, k'.1))
    && (forall i, j | 0 <= i < j < |gws| ::
          && gws[i].meta.uid != gws[j].meta.uid
          && HostObjectName(tc.name, gws[i].meta.ns, gws[i].meta.name) != HostObjectName(tc.name, gws[j].meta.ns, gws[j].meta.name))
    && (forall k, g | k in svcs && g in gws :: svcs[k].meta.uid != g.meta.uid)
  }

  lemma NoPairs(tc: TenantCluster)
    ensures GatewayPairsOf(tc, []) == []
  {
  }

  lemma GatewayPairsExactly(tc: TenantCluster, gws: seq<Routes.GuestGateway>, p: GatewayPair)
    ensures p in GatewayPairsOf(tc, gws) <==>
              p.guest in gws && GatewayMaker(tc)(p.guest).Some? && p.hostName == GatewayMaker(tc)(p.guest).value.name
  {
    hide GatewayMaker, FilterMap;
    if p in GatewayPairsOf(tc, gws) {
      var _ := Origin(GatewayPairFn(tc), gws, p);
    }
    if p.guest in gws && GatewayMaker(tc)(p.guest).Some? && p.hostName == GatewayMaker(tc)(p.guest).value.name {
      Kept(GatewayPairFn(tc), gws, p.guest);
    }
  }

  lemma GatewayNamed(tc: TenantCluster, g: Routes.GuestGateway)
    requires GatewayMaker(tc)(g).Some?
    ensures GatewayMaker(tc)(g).value.name == HostObjectName(tc.name, g.meta.ns, g.meta.name)
  {
  }

  // Where the finalizers wanted after the gather come from.
  lemma JustifiedFrom(tc: TenantCluster, offered: seq<string>, svcs: map<GuestKey, Services.GuestService>, lbs: seq<ServicePair>,
                      ings: seq<Ingresses.GuestIngress>, gws: seq<Routes.GuestGateway>, rts: seq<Routes.GuestRoute>,
                      needed: set<HostName>, needed': set<HostName>, want: set<ObjRef>, want': set<ObjRef>, want'': set<ObjRef>, r: ObjRef)
    requires PinsOnly(PairRefs(lbs), want, tc, svcs, needed, ings, IngressMaker(tc, offered, svcs), IngressRef)
    requires PinsOnly(want, want', tc, svcs, needed, gws, GatewayMaker(tc), GatewayRef)
    requires PinsOnly(want', want'', tc, svcs, needed', rts, RouteMaker(tc, offered, svcs), RouteRef)
    requires needed <= needed' && r in want''
    ensures Justified(tc, offered, svcs, needed', lbs, GatewayPairsOf(tc, gws), ings, rts, r)
  {
    hide IngressMaker, RouteMaker, GatewayMaker, HostObjectName, PairRefs;
    if g :| g in gws && GatewayMaker(tc)(g).Some? && GatewayRef(g) == r {
      GatewayPairsExactly(tc, gws, Pair(g, GatewayMaker(tc)(g).value.name));
    }
  }

  lemma ServiceClaimed(tc: TenantCluster, offered: seq<string>, svcs: map<GuestKey, Services.GuestService>, p: ServicePair)
    requires Publishes(tc, offered, svcs, p)
    ensures ServiceClaim(p) == ServiceClaimAt(tc, svcs, KeyOf(p.guest.meta))
  {
    Services.NamedAlike(tc, p.guest, Services.LoadBalancer, Services.LoadBalancer, offered);
  }

  lemma GatewayClaimed(tc: TenantCluster, gws: seq<Routes.GuestGateway>, p: GatewayPair)
    requires p in GatewayPairsOf(tc, gws)
    ensures p.guest in gws && GatewayMaker(tc)(p.guest).Some? && GatewayClaim(p) == GatewayClaimOf(tc, p.guest)
  {
    hide GatewayMaker;
    GatewayPairsExactly(tc, gws, p);
    GatewayNamed(tc, p.guest);
  }

  // The claims after the gather are those of the objects that ask for an address.
  lemma ClaimsExactly(tc: TenantCluster, offered: seq<string>, svcs: map<GuestKey, Services.GuestService>, sync: bool,
                      gws: seq<Routes.GuestGateway>, lbs: seq<ServicePair>, c: Claim)
    requires forall p | p in lbs :: Publishes(tc, offered, svcs, p)
    requires forall k | k in svcs :: KeyOf(svcs[k].meta) == k
    requires PairsExactly(tc, offered, svcs, if sync then svcs.Keys else {}, lbs)
    ensures c in ClaimsOf(lbs, GatewayPairsOf(tc, gws)) <==> Asked(tc, offered, svcs, sync, gws, c)
  {
    hide HostObjectName, Services.HostServiceFor, GatewayMaker, ClaimsOf, GatewayPairsOf, ServiceClaim, GatewayClaim, ServiceClaimAt, GatewayClaimOf;
    hide AsksAddress, PairsExactly;
    var gwps := GatewayPairsOf(tc, gws);
    ClaimOrigin(lbs, gwps, c);
    if p :| p in lbs && ServiceClaim(p) == c {
      ServiceClaimed(tc, offered, svcs, p);
      PairAsked(tc, offered, svcs, sync, lbs, p);
    }
    if p :| p in gwps && GatewayClaim(p) == c {
      GatewayClaimed(tc, gws, p);
    }
    if k :| sync && k in svcs && AsksAddress(tc, offered, svcs[k]) && c == ServiceClaimAt(tc, svcs, k) {
      AskedHasPair(tc, offered, svcs, lbs, k);
    }
    if g :| g in gws && GatewayMaker(tc)(g).Some? && c == GatewayClaimOf(tc, g) {
      var p := Pair(g, GatewayMaker(tc)(g).value.name);
      GatewayPairsExactly(tc, gws, p);
      GatewayClaimed(tc, gws, p);
    }
  }

  lemma PairAsked(tc: TenantCluster, offered: seq<string>, svcs: map<GuestKey, Services.GuestService>, sync: bool, lbs: seq<ServicePair>, p: ServicePair)
    requires p in lbs && Publishes(tc, offered, svcs, p) && PairsExactly(tc, offered, svcs, if sync then svcs.Keys else {}, lbs)
    ensures sync && KeyOf(p.guest.meta) in svcs && svcs[KeyOf(p.guest.meta)] == p.guest && AsksAddress(tc, offered, p.guest)
  {
  }

  lemma AskedHasPair(tc: TenantCluster, offered: seq<string>, svcs: map<GuestKey, Services.GuestService>, lbs: seq<ServicePair>, k: GuestKey)
    requires k in svcs && AsksAddress(tc, offered, svcs[k]) && PairsExactly(tc, offered, svcs, svcs.Keys, lbs)
    requires (forall p | p in lbs :: Publishes(tc, offered, svcs, p)) && KeyOf(svcs[k].meta) == k
    ensures exists p :: p in lbs && ServiceClaim(p) == ServiceClaimAt(tc, svcs, k)
  {
    hide AsksAddress, HostObjectName, Services.HostServiceFor;
    var p :| p in lbs && p.guest == svcs[k];
    assert Publishes(tc, offered, svcs, p);
    ServiceClaimed(tc, offered, svcs, p);
  }

  // Where the objects differ, so do their claims.
  lemma ApartDistinct(tc: TenantCluster, offered: seq<string>, svcs: map<GuestKey, Services.GuestService>, done: set<GuestKey>,
                      gws: seq<Routes.GuestGateway>, lbs: seq<ServicePair>)
    requires forall p | p in lbs :: Publishes(tc, offered, svcs, p)
    requires PairsExactly(tc, offered, svcs, done, lbs) && Apart(tc, svcs, gws)
    ensures Distinct(ClaimsOf(lbs, GatewayPairsOf(tc, gws)))
  {
    hide AsksAddress, HostObjectName, Services.HostServiceFor, GatewayMaker, FilterMap, Publishes;
    var gwps := GatewayPairsOf(tc, gws);
    var c := ClaimsOf(lbs, gwps);
    var at := Marked(GatewayPairFn(tc), gws);
    forall i | 0 <= i < |c|
      ensures i < |lbs| ==> KeyOf(lbs[i].guest.meta) in svcs && c[i] == ServiceClaimAt(tc, svcs, KeyOf(lbs[i].guest.meta))
      ensures i >= |lbs| ==> at[i - |lbs|] < |gws| && c[i] == GatewayClaimOf(tc, gws[at[i - |lbs|]])
    {
      ClaimPlace(tc, offered, svcs, gws, lbs, at, i);
    }
    forall i, j | 0 <= i < j < |c| ensures c[i].uid != c[j].uid && SlotOf(c[i]) != SlotOf(c[j]) {
      if j < |lbs| {
        assert KeyOf(lbs[i].guest.meta) != KeyOf(lbs[j].guest.meta);
      } else if i < |lbs| {
        assert gws[at[j - |lbs|]] in gws;
      } else {
        assert at[i - |lbs|] < at[j - |lbs|];
      }
    }
  }

  lemma ClaimPlace(tc: TenantCluster, offered: seq<string>, svcs: map<GuestKey, Services.GuestService>,
                   gws: seq<Routes.GuestGateway>, lbs: seq<ServicePair>, at: seq<nat>, i: nat)
    requires forall p | p in lbs :: Publishes(tc, offered, svcs, p)
    requires Marks(GatewayPairFn(tc), gws, at) && i < |ClaimsOf(lbs, GatewayPairsOf(tc, gws))|
    ensures var c := ClaimsOf(lbs, GatewayPairsOf(tc, gws));
            && (i < |lbs| ==> KeyOf(lbs[i].guest.meta) in svcs && c[i] == ServiceClaimAt(tc, svcs, KeyOf(lbs[i].guest.meta)))
            && (i >= |lbs| ==> i - |lbs| < |at| && at[i - |lbs|] < |gws| && c[i] == GatewayClaimOf(tc, gws[at[i - |lbs|]]))
  {
    hide HostObjectName, Services.HostServiceFor, GatewayMaker, FilterMap;
    var gwps := GatewayPairsOf(tc, gws);
    if i < |lbs| {
      assert lbs[i] in lbs && Publishes(tc, offered, svcs, lbs[i]);
      ServiceClaimed(tc, offered, svcs, lbs[i]);
    } else {
      assert gwps[i - |lbs|] in gwps;
      GatewayClaimed(tc, gws, gwps[i - |lbs|]);
    }
  }

  /* ----- Withdrawing one claim ----- */

  // What is left of a Service that may not be published: a ClusterIP, if something routes to it.
  function Downgraded(tc: TenantCluster, offered: seq<string>, svcs: map<GuestKey, Services.GuestService>,
                      needed: set<HostName>, c: Claim): Option<Services.HostService>
  {
    var key := (c.ref.ns, c.ref.name);
    if c.hostName !in needed || key !in svcs then None
    else
      match Services.HostServiceFor(tc, svcs[key], Services.ClusterIP, offered)
      case Ok(host) => Some(host)
      case Refused(_) => None
  }

  function ServicesWithout(services: map<HostName, Services.HostService>, c: Claim, backend: Option<Services.HostService>)
    : map<HostName, Services.HostService>
  {
    if backend.Some? then services[c.hostName := backend.value] else services - {c.hostName}
  }

  function WantWithout(want: set<ObjRef>, c: Claim, backend: Option<Services.HostService>): set<ObjRef> {
    if backend.Some? then want else want - {c.ref}
  }

  // The claim is that of a guest Service that could be published.
  predicate Publishable(tc: TenantCluster, offered: seq<string>, svcs: map<GuestKey, Services.GuestService>, c: Claim) {
    && (c.ref.ns, c.ref.name) in svcs
    && Services.HostServiceFor(tc, svcs[(c.ref.ns, c.ref.name)], Services.LoadBalancer, offered).Ok?
    && Services.HostServiceFor(tc, svcs[(c.ref.ns, c.ref.name)], Services.LoadBalancer, offered).value.name == c.hostName
  }

  lemma DowngradedExactly(tc: TenantCluster, offered: seq<string>, svcs: map<GuestKey, Services.GuestService>, needed: set<HostName>, c: Claim)
    requires Publishable(tc, offered, svcs, c)
    ensures var backend := Downgraded(tc, offered, svcs, needed, c);
            && (backend.Some? <==> c.hostName in needed)
            && (backend.Some? ==> backend.value.name == c.hostName && backend.value.spec.kind == Services.ClusterIP)
  {
    var svc := svcs[(c.ref.ns, c.ref.name)];
    Services.PublishedIsBackend(tc, svc, offered);
    if c.hostName in needed {
      assert Downgraded(tc, offered, svcs, needed, c) == Some(Services.HostServiceFor(tc, svc, Services.ClusterIP, offered).value);
    }
  }

  // Removing a pair removes its name.
  lemma NameRemoved<G>(pairs: seq<Pair<G>>, name: HostName)
    requires DistinctPairs(pairs)
    ensures PairNames(RemoveFirst(pairs, name)) == PairNames(pairs) - {name}
  {
    forall p ensures p in RemoveFirst(pairs, name) <==> p in pairs && p.hostName != name { RemovedExactly(pairs, name, p); }
    var left := RemoveFirst(pairs, name);
    forall k ensures k in PairNames(left) <==> k in PairNames(pairs) && k != name {
      if k in PairNames(left) {
        var p :| p in left && p.hostName == k;
        assert p in pairs;
      }
      if k in PairNames(pairs) && k != name {
        var p :| p in pairs && p.hostName == k;
        assert p in left;
      }
    }
  }

  lemma MatchWithdrawn(services: map<HostName, Services.HostService>, lbs: seq<ServicePair>, c: Claim, backend: Option<Services.HostService>)
    requires ServicesMatch(services, lbs) && DistinctPairs(lbs)
    requires backend.Some? ==> backend.value.name == c.hostName && backend.value.spec.kind == Services.ClusterIP
    ensures ServicesMatch(ServicesWithout(services, c, backend), RemoveFirst(lbs, c.hostName))
  {
    NameRemoved(lbs, c.hostName);
    var services' := ServicesWithout(services, c, backend);
    forall k ensures IsPublic(services', k) <==> k in PairNames(RemoveFirst(lbs, c.hostName)) {
      assert IsPublic(services, k) <==> k in PairNames(lbs);
    }
  }

  lemma BacksWithdrawn(tc: TenantCluster, offered: seq<string>, svcs: map<GuestKey, Services.GuestService>,
                       services: map<HostName, Services.HostService>, lbs: seq<ServicePair>, needed: set<HostName>, want: set<ObjRef>, c: Claim)
    requires Backs(tc, offered, svcs, services, needed, want) && ServicesMatch(services, lbs)
    requires c.ref.kind == ServiceKind && Publishable(tc, offered, svcs, c) && c.ref in want
    ensures var backend := Downgraded(tc, offered, svcs, needed, c);
            Backs(tc, offered, svcs, ServicesWithout(services, c, backend), needed, WantWithout(want, c, backend))
  {
    hide Services.HostServiceFor, HostObjectName;
    var key := (c.ref.ns, c.ref.name);
    var backend := Downgraded(tc, offered, svcs, needed, c);
    var services', want' := ServicesWithout(services, c, backend), WantWithout(want, c, backend);
    DowngradedExactly(tc, offered, svcs, needed, c);
    if backend.Some? {
      assert PinnedFor(tc, offered, svcs, backend.value, want', key);
    }
    forall k | k in services && k != c.hostName ensures exists key' :: PinnedFor(tc, offered, svcs, services[k], want', key') {
      var key' :| PinnedFor(tc, offered, svcs, services[k], want, key');
      Services.NamedAlike(tc, svcs[key'], services[k].spec.kind, Services.LoadBalancer, offered);
      assert PinnedFor(tc, offered, svcs, services[k], want', key');
    }
  }

  // The pairs that are left when some claims are gone.
  ghost predicate Left(lbs: seq<ServicePair>, gws: seq<GatewayPair>, lbs': seq<ServicePair>, gws': seq<GatewayPair>, gone: seq<Claim>) {
    && (forall p :: p in lbs' <==> p in lbs && ServiceClaim(p) !in gone)
    && (forall p :: p in gws' <==> p in gws && GatewayClaim(p) !in gone)
  }

  lemma NoneGone(lbs: seq<ServicePair>, gws: seq<GatewayPair>)
    ensures Left(lbs, gws, lbs, gws, [])
  {
  }

  // What withdrawing may change: Gateways go, and finalizers of Services and Gateways.
  ghost predicate Shrinks(gws: map<HostName, Routes.HostGateway>, want: set<ObjRef>, gws': map<HostName, Routes.HostGateway>, want': set<ObjRef>) {
    && (forall k | k in gws' :: k in gws && gws'[k] == gws[k])
    && want' <= want
    && (forall r | r in want && r.kind != ServiceKind && r.kind != GatewayKind :: r in want')
  }

  lemma ShrinksNone(gws: map<HostName, Routes.HostGateway>, want: set<ObjRef>)
    ensures Shrinks(gws, want, gws, want)
  {
  }

  lemma ShrinksBy(gws: map<HostName, Routes.HostGateway>, want: set<ObjRef>, c: Claim)
    ensures Shrinks(gws, want, gws, want)
    ensures c.ref.kind == ServiceKind || c.ref.kind == GatewayKind ==>
              Shrinks(gws, want, gws, want - {c.ref}) && Shrinks(gws, want, gws - {c.hostName}, want - {c.ref})
  {
  }

  lemma ShrinksOn(gws: map<HostName, Routes.HostGateway>, want: set<ObjRef>, gws': map<HostName, Routes.HostGateway>, want': set<ObjRef>,
                  gws'': map<HostName, Routes.HostGateway>, want'': set<ObjRef>)
    requires Shrinks(gws, want, gws', want') && Shrinks(gws', want', gws'', want'')
    ensures Shrinks(gws, want, gws'', want'')
  {
  }

  // Two guest Services with pairs of different names are different.
  lemma PairsWithdrawn(tc: TenantCluster, offered: seq<string>, svcs: map<GuestKey, Services.GuestService>,
                       lbs: seq<ServicePair>, gws: seq<GatewayPair>, gateways: set<HostName>, want: set<ObjRef>, c: Claim)
    requires PairsSound(tc, offered, svcs, lbs, gws, gateways, want) && DistinctPairs(lbs)
    requires c.ref.kind == ServiceKind && Publishable(tc, offered, svcs, c)
    ensures PairsSound(tc, offered, svcs, RemoveFirst(lbs, c.hostName), gws, gateways, want - {c.ref})
    ensures PairsSound(tc, offered, svcs, RemoveFirst(lbs, c.hostName), gws, gateways, want)
  {
    forall p | p in RemoveFirst(lbs, c.hostName)
      ensures p in lbs && RefOf(ServiceKind, p.guest.meta) != c.ref
    {
      RemovedExactly(lbs, c.hostName, p);
      assert Publishes(tc, offered, svcs, p);
    }
  }

  lemma GatewaysWithdrawn(tc: TenantCluster, offered: seq<string>, svcs: map<GuestKey, Services.GuestService>,
                          lbs: seq<ServicePair>, gws: seq<GatewayPair>, gateways: set<HostName>, want: set<ObjRef>, c: Claim)
    requires PairsSound(tc, offered, svcs, lbs, gws, gateways, want) && DistinctPairs(gws)
    requires c.ref.kind == GatewayKind && c.hostName == HostObjectName(tc.name, c.ref.ns, c.ref.name)
    ensures PairsSound(tc, offered, svcs, lbs, RemoveFirst(gws, c.hostName), gateways - {c.hostName}, want - {c.ref})
  {
    NameRemoved(gws, c.hostName);
    forall p | p in RemoveFirst(gws, c.hostName)
      ensures p in gws && RefOf(GatewayKind, p.guest.meta) != c.ref
    {
      RemovedExactly(gws, c.hostName, p);
    }
  }

  lemma PairsDistinct(lbs: seq<ServicePair>, gws: seq<GatewayPair>)
    requires Distinct(ClaimsOf(lbs, gws))
    ensures DistinctPairs(lbs) && DistinctPairs(gws)
  {
    var c := ClaimsOf(lbs, gws);
    forall i, j | 0 <= i < j < |lbs| ensures lbs[i].hostName != lbs[j].hostName {
      assert SlotOf(c[i]) != SlotOf(c[j]);
    }
    forall i, j | 0 <= i < j < |gws| ensures gws[i].hostName != gws[j].hostName {
      assert SlotOf(c[|lbs| + i]) != SlotOf(c[|lbs| + j]);
    }
  }

  // Removing a claim's pair removes nothing else.
  lemma ServiceRemoved(lbs: seq<ServicePair>, c: Claim, p: ServicePair)
    requires DistinctPairs(lbs) && exists q | q in lbs :: ServiceClaim(q) == c
    ensures p in RemoveFirst(lbs, c.hostName) <==> p in lbs && ServiceClaim(p) != c
  {
    RemovedExactly(lbs, c.hostName, p);
    SamePair(lbs, p);
  }

  lemma GatewayRemoved(gws: seq<GatewayPair>, c: Claim, p: GatewayPair)
    requires DistinctPairs(gws) && exists q | q in gws :: GatewayClaim(q) == c
    ensures p in RemoveFirst(gws, c.hostName) <==> p in gws && GatewayClaim(p) != c
  {
    RemovedExactly(gws, c.hostName, p);
    SamePair(gws, p);
  }

  lemma SamePair<G(!new)>(pairs: seq<Pair<G>>, p: Pair<G>)
    requires DistinctPairs(pairs)
    ensures forall q | q in pairs && p in pairs && q.hostName == p.hostName :: q == p
  {
    forall q | q in pairs && p in pairs && q.hostName == p.hostName ensures q == p {
      var i :| 0 <= i < |pairs| && pairs[i] == p;
      var j :| 0 <= j < |pairs| && pairs[j] == q;
    }
  }

  lemma ClaimOrigin(lbs: seq<ServicePair>, gws: seq<GatewayPair>, c: Claim)
    ensures c in ClaimsOf(lbs, gws) <==>
              (exists p | p in lbs :: ServiceClaim(p) == c) || (exists p | p in gws :: GatewayClaim(p) == c)
  {
    var all := ClaimsOf(lbs, gws);
    if p :| p in lbs && ServiceClaim(p) == c {
      var i :| 0 <= i < |lbs| && lbs[i] == p;
      assert all[i] == c;
    }
    if p :| p in gws && GatewayClaim(p) == c {
      var i :| 0 <= i < |gws| && gws[i] == p;
      assert all[|lbs| + i] == c;
    }
  }

  // The same reason, for each claim.
  function Tagged(claims: seq<Claim>, reason: Reason): seq<Note> {
    seq(|claims|, i requires 0 <= i < |claims| => (claims[i].ref, reason))
  }

  lemma TaggedNone(reason: Reason)
    ensures Tagged([], reason) == []
  {
  }

  lemma TaggedMore(claims: seq<Claim>, reason: Reason, c: Claim)
    ensures Tagged(claims + [c], reason) == Tagged(claims, reason) + [(c.ref, reason)]
  {
  }

  lemma NamesOfClaims(lbs: seq<ServicePair>, gws: seq<GatewayPair>, k: HostName)
    ensures k in PairNames(lbs) <==> (ServiceKind, k) in SlotsOf(ClaimsOf(lbs, gws))
    ensures k in PairNames(gws) <==> (GatewayKind, k) in SlotsOf(ClaimsOf(lbs, gws))
  {
    var all := ClaimsOf(lbs, gws);
    if p :| p in lbs && p.hostName == k {
      ClaimOrigin(lbs, gws, ServiceClaim(p));
      assert SlotOf(ServiceClaim(p)) in SlotsOf(all);
    }
    if p :| p in gws && p.hostName == k {
      ClaimOrigin(lbs, gws, GatewayClaim(p));
      assert SlotOf(GatewayClaim(p)) in SlotsOf(all);
    }
    forall c | c in all ensures c.ref.kind == ServiceKind ==> c.hostName in PairNames(lbs)
                        ensures c.ref.kind == GatewayKind ==> c.hostName in PairNames(gws)
    {
      ClaimOrigin(lbs, gws, c);
    }
  }

  // Marks kept per claim are marks kept per slot, when slots are distinct.
  lemma MarksAreSlots(claims: seq<Claim>, existing: seq<bool>, held: set<Slot>)
    requires |existing| == |claims| && held == set i | 0 <= i < |claims| && existing[i] :: SlotOf(claims[i])
    requires DistinctSlots(claims)
    ensures forall i | 0 <= i < |claims| :: existing[i] <==> SlotOf(claims[i]) in held
  {
  }

  lemma SameMembers(a: seq<Claim>, b: seq<Claim>)
    requires multiset(a) == multiset(b)
    ensures |a| == |b| && forall c :: c in a <==> c in b
  {
    assert |multiset(a)| == |multiset(b)|;
    forall c ensures c in a <==> c in b { assert c in a <==> c in multiset(a); }
  }

  lemma Verdicts(collected: seq<Claim>, held: set<Slot>, limit: int)
    requires Distinct(collected)
    ensures var sorted := Ordering.Sort(collected, Before);
            && DistinctSlots(RefusedClaims(sorted, held, limit))
            && (forall c | c in collected :: c in RefusedClaims(sorted, held, limit) <==> c !in Admitted(sorted, held, limit))
            && (forall c | c in Admitted(sorted, held, limit) :: c in collected)
  {
    var sorted := Gathered(collected, collected);
    RefusedDistinct(sorted, held, limit);
    OnlyListed(sorted, held, limit);
    forall c | c in collected ensures c in RefusedClaims(sorted, held, limit) <==> c !in Admitted(sorted, held, limit) {
      RefusedExactly(sorted, held, limit, c);
    }
  }

  // What an uncached read comes to.
  datatype Answer<T> = Found(value: T) | NotFound | Failed

  class Gather {
    const tc: TenantCluster
    // hostFamilies; gatewayAPIOnHost; what an uncached read of the host finds
    const offered: seq<string>
    const gatewayAPI: bool
    const hostServices: map<HostName, Services.HostService>
    const hostGateways: map<HostName, Labels>

    var guestSvcs: map<GuestKey, Services.GuestService>
    var services: map<HostName, Services.HostService>
    var ingresses: map<HostName, Ingresses.HostIngress>
    var gateways: map<HostName, Routes.HostGateway>
    var routes: map<HostName, Routes.HostRoute>
    var backendNeeded: set<HostName>
    var lbPairs: seq<ServicePair>
    var gatewayPairs: seq<GatewayPair>
    var wantFinalizer: set<ObjRef>
    var refusals: seq<Note>
    var loadBalancers: nat

    constructor (tc: TenantCluster, offered: seq<string>, gatewayAPI: bool,
                 hostServices: map<HostName, Services.HostService>, hostGateways: map<HostName, Labels>)
      ensures Sound() && Closed(ingresses, routes, Backed())
      ensures Empty()
      ensures this.tc == tc && this.offered == offered && this.gatewayAPI == gatewayAPI
      ensures this.hostServices == hostServices && this.hostGateways == hostGateways
    {
      this.tc, this.offered, this.gatewayAPI := tc, offered, gatewayAPI;
      this.hostServices, this.hostGateways := hostServices, hostGateways;
      guestSvcs, services, ingresses, gateways, routes := map[], map[], map[], map[], map[];
      backendNeeded, lbPairs, gatewayPairs, wantFinalizer, refusals, loadBalancers := {}, [], [], {}, [], 0;
    }

    // Nothing has been gathered.
    ghost predicate Empty()
      reads this`services, this`ingresses, this`gateways, this`routes, this`backendNeeded, this`lbPairs, this`gatewayPairs, this`wantFinalizer,
            this`refusals
    {
      services == map[] && ingresses == map[] && gateways == map[] && routes == map[] && backendNeeded == {}
      && lbPairs == [] && gatewayPairs == [] && wantFinalizer == {} && refusals == []
    }

    // Desired Services known to be routed to.
    function Backed(): set<HostName>
      reads this`services, this`backendNeeded
    {
      services.Keys * backendNeeded
    }

    function Claims(): seq<Claim>
      reads this`lbPairs, this`gatewayPairs
    {
      ClaimsOf(lbPairs, gatewayPairs)
    }

    // The API's answer is indexed by namespace and name.
    ghost predicate Indexed()
      reads this`guestSvcs
    {
      forall k | k in guestSvcs :: KeyOf(guestSvcs[k].meta) == k
    }

    ghost predicate Sound()
      reads this`guestSvcs, this`services, this`gateways, this`lbPairs, this`gatewayPairs, this`wantFinalizer, this`backendNeeded
    {
      && Indexed()
      && ServicesMatch(services, lbPairs)
      && PairsSound(tc, offered, guestSvcs, lbPairs, gatewayPairs, gateways.Keys, wantFinalizer)
      && Backs(tc, offered, guestSvcs, services, backendNeeded, wantFinalizer)
    }

    method Refuse(ref: ObjRef, reasons: seq<Reason>)
      modifies this`refusals
      ensures refusals == old(refusals) + Noted(ref, reasons)
    {
      for i := 0 to |reasons|
        invariant refusals == old(refusals) + Noted(ref, reasons[..i])
      {
        refusals := refusals + [(ref, reasons[i])];
      }
      assert reasons[..|reasons|] == reasons;
    }

    // Indexes the listed Services.
    method ListServices(list: seq<Services.GuestService>)
      requires Empty()
      modifies this`guestSvcs
      ensures Sound() && Closed(ingresses, routes, Backed()) && Empty() && Lists(guestSvcs, list)
    {
      hide HostObjectName, Services.HostServiceFor;
      guestSvcs := map[];
      for i := 0 to |list|
        invariant forall svc | svc in list[..i] :: KeyOf(svc.meta) in guestSvcs
        invariant forall k | k in guestSvcs :: guestSvcs[k] in list && KeyOf(guestSvcs[k].meta) == k
      {
        guestSvcs := guestSvcs[KeyOf(list[i].meta) := list[i]];
      }
    }

    /** gatherServices, after the list call, in any order: the Services that ask for an address and can
        be given one get a pair and a finalizer each, and no other Service does. */
    method GatherServices(sync: bool)
      requires Sound() && Closed(ingresses, routes, Backed()) && Empty()
      modifies this`services, this`lbPairs, this`wantFinalizer, this`refusals
      ensures Sound() && Closed(ingresses, routes, Backed())
      ensures PairsExactly(tc, offered, guestSvcs, if sync then guestSvcs.Keys else {}, lbPairs)
      ensures wantFinalizer == PairRefs(lbPairs)
      ensures NotedExactly(tc, offered, guestSvcs, if sync then guestSvcs.Keys else {}, refusals)
    {
      hide Closed, ServicesMatch, PairsSound, Backs, Services.HostServiceFor, PairsExactly, NotedExactly, HostObjectName, PairRefs;
      NoneAsked(tc, offered, guestSvcs);
      if !sync {
        return;
      }
      var todo := guestSvcs.Keys;
      assert guestSvcs.Keys - todo == {};
      while todo != {}
        invariant todo <= guestSvcs.Keys && Sound() && Closed(ingresses, routes, Backed())
        invariant PairsExactly(tc, offered, guestSvcs, guestSvcs.Keys - todo, lbPairs)
        invariant wantFinalizer == PairRefs(lbPairs)
        invariant NotedExactly(tc, offered, guestSvcs, guestSvcs.Keys - todo, refusals)
      {
        var k :| k in todo;
        var svc := guestSvcs[k];
        ghost var lbs, notes := lbPairs, refusals;
        PairsExactlyMore(tc, offered, guestSvcs, guestSvcs.Keys - todo, lbPairs, k, HostObjectName(tc.name, k.0, k.1));
        assert guestSvcs.Keys - todo + {k} == guestSvcs.Keys - (todo - {k});
        if Services.WantsLoadBalancer(tc, svc) && !svc.deleting {
          GatherService(k);
        }
        assert lbPairs == if AsksAddress(tc, offered, svc) then lbs + [Pair(svc, HostObjectName(tc.name, k.0, k.1))] else lbs;
        NotedExactlyMore(tc, offered, guestSvcs, guestSvcs.Keys - todo, notes, k, refusals);
        todo := todo - {k};
      }
      assert guestSvcs.Keys - todo == guestSvcs.Keys;
    }

    // One Service that wants an address.
    method GatherService(k: GuestKey)
      requires Sound() && Closed(ingresses, routes, Backed()) && wantFinalizer == PairRefs(lbPairs)
      requires k in guestSvcs && Services.WantsLoadBalancer(tc, guestSvcs[k]) && !guestSvcs[k].deleting
      modifies this`services, this`lbPairs, this`wantFinalizer, this`refusals
      ensures Sound() && Closed(ingresses, routes, Backed()) && wantFinalizer == PairRefs(lbPairs)
      ensures lbPairs == old(lbPairs) +
                if Services.HostServiceFor(tc, guestSvcs[k], Services.LoadBalancer, offered).Ok?
                then [Pair(guestSvcs[k], HostObjectName(tc.name, k.0, k.1))] else []
      ensures old(refusals) <= refusals
      ensures forall x :: x in refusals[|old(refusals)|..] <==> RefusedService(tc, offered, guestSvcs, k, x)
    {
      hide Closed, ServicesMatch, Services.HostServiceFor, HostObjectName, Backs, PairsSound;
      var svc := guestSvcs[k];
      var ref := RefOf(ServiceKind, svc.meta);
      var r := Services.MapService(tc, svc, Services.LoadBalancer, offered);
      if r.Refused? {
        refusals := refusals + [(ref, ServiceRefused(r.why))];
        return;
      }
      var host := r.value;
      Services.CarriedFaithfully(tc, svc, Services.LoadBalancer, offered);
      MatchPublished(services, lbPairs, svc, host);
      BacksOneMore(tc, offered, guestSvcs, services, backendNeeded, wantFinalizer, host, k);
      PairsPublished(tc, offered, guestSvcs, lbPairs, gatewayPairs, gateways.Keys, wantFinalizer, Pair(svc, host.name));
      ClosedGrows(ingresses, routes, Backed(), services.Keys * backendNeeded + {host.name} * backendNeeded);
      services := services[host.name := host];
      lbPairs := lbPairs + [Pair(svc, host.name)];
      wantFinalizer := wantFinalizer + {ref};
      assert Backed() == old(Backed()) + {host.name} * backendNeeded;
    }

    /** addBackends: a ClusterIP Service for each name that resolves, unless a Service of that host name
        is wanted already; and nothing else. */
    method AddBackends(ns: string, names: seq<string>)
      requires ServicesMatch(services, lbPairs) && Indexed()
      requires Backs(tc, offered, guestSvcs, services, backendNeeded, wantFinalizer)
      modifies this`services, this`backendNeeded, this`wantFinalizer
      ensures ServicesMatch(services, lbPairs) && old(Backed()) <= Backed()
      ensures Backs(tc, offered, guestSvcs, services, backendNeeded, wantFinalizer)
      ensures old(wantFinalizer) <= wantFinalizer && old(backendNeeded) <= backendNeeded
      ensures forall k | k in old(services) :: k in services && services[k] == old(services)[k]
      ensures forall n | n in names && Resolver(tc, offered, guestSvcs, ns)(n).None? :: HostObjectName(tc.name, ns, n) in Backed()
      ensures forall k | k in backendNeeded :: k in old(backendNeeded) || exists n :: n in names && k == HostObjectName(tc.name, ns, n)
      ensures forall r | r in wantFinalizer :: r in old(wantFinalizer) || NeededBackend(tc, guestSvcs, backendNeeded, r)
    {
      hide HostObjectName, Services.HostServiceFor, ServicesMatch, Backs;
      for i := 0 to |names|
        invariant ServicesMatch(services, lbPairs) && old(Backed()) <= Backed()
        invariant Backs(tc, offered, guestSvcs, services, backendNeeded, wantFinalizer)
        invariant old(wantFinalizer) <= wantFinalizer && old(backendNeeded) <= backendNeeded
        invariant forall k | k in old(services) :: k in services && services[k] == old(services)[k]
        invariant forall n | n in names[..i] && Resolver(tc, offered, guestSvcs, ns)(n).None? :: HostObjectName(tc.name, ns, n) in Backed()
        invariant forall k | k in backendNeeded ::
                    k in old(backendNeeded) || exists n :: n in names && k == HostObjectName(tc.name, ns, n)
        invariant forall r | r in wantFinalizer :: r in old(wantFinalizer) || NeededBackend(tc, guestSvcs, backendNeeded, r)
      {
        var name := names[i];
        assert names[..i + 1] == names[..i] + [name];
        if (ns, name) !in guestSvcs {
          continue;
        }
        var svc := guestSvcs[(ns, name)];
        assert svc.meta.ns == ns && svc.meta.name == name;
        var hostName := HostObjectName(tc.name, ns, name);
        BacksMore(tc, offered, guestSvcs, services, backendNeeded, wantFinalizer, backendNeeded + {hostName}, wantFinalizer);
        backendNeeded := backendNeeded + {hostName};
        if hostName in services {
          continue;
        }
        var r := Services.MapService(tc, svc, Services.ClusterIP, offered);
        if r.Refused? {
          continue;
        }
        Services.CarriedFaithfully(tc, svc, Services.ClusterIP, offered);
        MatchBackend(services, lbPairs, r.value);
        BacksOneMore(tc, offered, guestSvcs, services, backendNeeded, wantFinalizer, r.value, (ns, name));
        services := services[hostName := r.value];
        wantFinalizer := wantFinalizer + {ObjRef(ServiceKind, ns, name)};
      }
      assert names[..|names|] == names;
    }

    /** gatherIngresses, for one listed Ingress. */
    method GatherIngress(guest: Ingresses.GuestIngress)
      requires Sound() && Closed(ingresses, routes, Backed())
      modifies this`services, this`ingresses, this`backendNeeded, this`wantFinalizer, this`refusals
      ensures Sound() && Closed(ingresses, routes, Backed())
      ensures var made := IngressMaker(tc, offered, guestSvcs)(guest);
              && ingresses == Put(old(ingresses), made, IngressName)
              && old(wantFinalizer) <= wantFinalizer && (made.Some? ==> IngressRef(guest) in wantFinalizer)
              && (forall r | r in wantFinalizer ::
                    r in old(wantFinalizer) || NeededBackend(tc, guestSvcs, backendNeeded, r) || (made.Some? && r == IngressRef(guest)))
      ensures old(backendNeeded) <= backendNeeded
      ensures forall k | k in backendNeeded :: k in old(backendNeeded) || IngressNeeds(tc, offered, guestSvcs, guest, k)
      ensures forall k | k in old(services) :: k in services && services[k] == old(services)[k]
      ensures refusals == old(refusals) + IngressNotes(tc, offered, guestSvcs)(guest)
    {
      hide Closed, ServicesMatch, PairsSound, Resolver, HostObjectName, Backs, NeededBackend, Noted, IngressReasons;
      hide Ingresses.HostIngressFor, Ingresses.BackendNames, Ingresses.RefusalsFor;
      if guest.deleting {
        return;
      }
      var ref := RefOf(IngressKind, guest.meta);
      var resolve := Resolver(tc, offered, guestSvcs, guest.meta.ns);
      var res := Ingresses.MapIngress(tc, guest, resolve);
      Refuse(ref, IngressReasons(res.refusals));
      if res.host.None? {
        return;
      }
      var host := res.host.value;
      AddBackends(guest.meta.ns, res.backends);
      ClosedGrows(ingresses, routes, old(Backed()), Backed());
      IngressCloses(tc, guest, resolve, res.backends, ingresses, routes, Backed());
      ingresses := ingresses[host.name := host];
      WantMore(tc, offered, guestSvcs, lbPairs, gatewayPairs, gateways.Keys, old(wantFinalizer), wantFinalizer + {ref});
      BacksMore(tc, offered, guestSvcs, services, backendNeeded, wantFinalizer, backendNeeded, wantFinalizer + {ref});
      wantFinalizer := wantFinalizer + {ref};
    }

    /** gatherIngresses, after the list call: the translations are wanted, each with its finalizer and
        the Services it routes to, and nothing else is. */
    method GatherIngresses(ings: seq<Ingresses.GuestIngress>)
      requires Sound() && Closed(ingresses, routes, Backed()) && ingresses == map[]
      modifies this`services, this`ingresses, this`backendNeeded, this`wantFinalizer, this`refusals
      ensures Sound() && Closed(ingresses, routes, Backed())
      ensures var make := IngressMaker(tc, offered, guestSvcs);
              && Holds(ingresses, ings, make, IngressName) && Pins(wantFinalizer, ings, make, IngressRef)
              && PinsOnly(old(wantFinalizer), wantFinalizer, tc, guestSvcs, backendNeeded, ings, make, IngressRef)
      ensures old(wantFinalizer) <= wantFinalizer && old(backendNeeded) <= backendNeeded
      ensures forall k | k in backendNeeded ::
                k in old(backendNeeded) || exists g :: g in ings && IngressNeeds(tc, offered, guestSvcs, g, k)
      ensures refusals == old(refusals) + FlatMap(IngressNotes(tc, offered, guestSvcs), ings)
    {
      hide Closed, ServicesMatch, PairsSound, Backs, NeededBackend, IngressNeeds, Holds, Pins, PinsOnly, IngressMaker, IngressNotes, Put, FlatMap;
      ghost var make := IngressMaker(tc, offered, guestSvcs);
      NothingHeld(wantFinalizer, tc, guestSvcs, backendNeeded, make, IngressName, IngressRef);
      assert ings[..0] == [];
      ghost var notes := IngressNotes(tc, offered, guestSvcs);
      FlatNone(notes);
      for i := 0 to |ings|
        invariant Sound() && Closed(ingresses, routes, Backed())
        invariant Holds(ingresses, ings[..i], make, IngressName) && Pins(wantFinalizer, ings[..i], make, IngressRef)
        invariant PinsOnly(old(wantFinalizer), wantFinalizer, tc, guestSvcs, backendNeeded, ings[..i], make, IngressRef)
        invariant old(wantFinalizer) <= wantFinalizer && old(backendNeeded) <= backendNeeded
        invariant forall k | k in backendNeeded ::
                    k in old(backendNeeded) || exists g :: g in ings && IngressNeeds(tc, offered, guestSvcs, g, k)
        invariant refusals == old(refusals) + FlatMap(notes, ings[..i])
      {
        ghost var held, want, needed := ingresses, wantFinalizer, backendNeeded;
        GatherIngress(ings[i]);
        FlatMore(notes, ings, i);
        HoldsMore(held, ings, make, IngressName, i);
        PinsMore(want, wantFinalizer, ings, make, IngressRef, i);
        PinsOnlyMore(old(wantFinalizer), want, tc, guestSvcs, needed, wantFinalizer, backendNeeded, ings, make, IngressRef, i);
      }
      assert ings[..|ings|] == ings;
    }

    /** gatherGateways, for one listed HTTPRoute. */
    method GatherRoute(guest: Routes.GuestRoute)
      requires Sound() && Closed(ingresses, routes, Backed())
      modifies this`services, this`routes, this`backendNeeded, this`wantFinalizer, this`refusals
      ensures Sound() && Closed(ingresses, routes, Backed())
      ensures var made := RouteMaker(tc, offered, guestSvcs)(guest);
              && routes == Put(old(routes), made, RouteName)
              && old(wantFinalizer) <= wantFinalizer && (made.Some? ==> RouteRef(guest) in wantFinalizer)
              && (forall r | r in wantFinalizer ::
                    r in old(wantFinalizer) || NeededBackend(tc, guestSvcs, backendNeeded, r) || (made.Some? && r == RouteRef(guest)))
      ensures old(backendNeeded) <= backendNeeded
      ensures forall k | k in backendNeeded :: k in old(backendNeeded) || RouteNeeds(tc, offered, guestSvcs, guest, k)
      ensures forall k | k in old(services) :: k in services && services[k] == old(services)[k]
      ensures refusals == old(refusals) + RouteNotes(tc, offered, guestSvcs)(guest)
    {
      hide Closed, ServicesMatch, PairsSound, Resolver, HostObjectName, Backs, NeededBackend, Noted, RouteReasons;
      hide Routes.HostRouteFor, Routes.UsedNames, Routes.RefusalsFor;
      if guest.deleting {
        return;
      }
      var ref := RefOf(RouteKind, guest.meta);
      var resolve := Resolver(tc, offered, guestSvcs, guest.meta.ns);
      var res := Routes.MapHTTPRoute(tc, guest, resolve);
      Refuse(ref, RouteReasons(res.refusals));
      if res.host.None? {
        return;
      }
      var host := res.host.value;
      AddBackends(guest.meta.ns, res.backends);
      ClosedGrows(ingresses, routes, old(Backed()), Backed());
      RouteCloses(tc, guest, resolve, res.backends, ingresses, routes, Backed());
      routes := routes[host.name := host];
      WantMore(tc, offered, guestSvcs, lbPairs, gatewayPairs, gateways.Keys, old(wantFinalizer), wantFinalizer + {ref});
      BacksMore(tc, offered, guestSvcs, services, backendNeeded, wantFinalizer, backendNeeded, wantFinalizer + {ref});
      wantFinalizer := wantFinalizer + {ref};
    }

    /** gatherGateways, after the list call for HTTPRoutes. */
    method GatherRoutes(rts: seq<Routes.GuestRoute>)
      requires Sound() && Closed(ingresses, routes, Backed()) && routes == map[]
      modifies this`services, this`routes, this`backendNeeded, this`wantFinalizer, this`refusals
      ensures Sound() && Closed(ingresses, routes, Backed())
      ensures var make := RouteMaker(tc, offered, guestSvcs);
              && Holds(routes, rts, make, RouteName) && Pins(wantFinalizer, rts, make, RouteRef)
              && PinsOnly(old(wantFinalizer), wantFinalizer, tc, guestSvcs, backendNeeded, rts, make, RouteRef)
      ensures old(wantFinalizer) <= wantFinalizer && old(backendNeeded) <= backendNeeded
      ensures forall k | k in backendNeeded ::
                k in old(backendNeeded) || exists g :: g in rts && RouteNeeds(tc, offered, guestSvcs, g, k)
      ensures refusals == old(refusals) + FlatMap(RouteNotes(tc, offered, guestSvcs), rts)
    {
      hide Closed, ServicesMatch, PairsSound, Backs, NeededBackend, RouteNeeds, Holds, Pins, PinsOnly, RouteMaker, RouteNotes, Put, FlatMap;
      ghost var make := RouteMaker(tc, offered, guestSvcs);
      NothingHeld(wantFinalizer, tc, guestSvcs, backendNeeded, make, RouteName, RouteRef);
      assert rts[..0] == [];
      ghost var notes := RouteNotes(tc, offered, guestSvcs);
      FlatNone(notes);
      for i := 0 to |rts|
        invariant Sound() && Closed(ingresses, routes, Backed())
        invariant Holds(routes, rts[..i], make, RouteName) && Pins(wantFinalizer, rts[..i], make, RouteRef)
        invariant PinsOnly(old(wantFinalizer), wantFinalizer, tc, guestSvcs, backendNeeded, rts[..i], make, RouteRef)
        invariant old(wantFinalizer) <= wantFinalizer && old(backendNeeded) <= backendNeeded
        invariant forall k | k in backendNeeded ::
                    k in old(backendNeeded) || exists g :: g in rts && RouteNeeds(tc, offered, guestSvcs, g, k)
        invariant refusals == old(refusals) + FlatMap(notes, rts[..i])
      {
        ghost var held, want, needed := routes, wantFinalizer, backendNeeded;
        GatherRoute(rts[i]);
        FlatMore(notes, rts, i);
        HoldsMore(held, rts, make, RouteName, i);
        PinsMore(want, wantFinalizer, rts, make, RouteRef, i);
        PinsOnlyMore(old(wantFinalizer), want, tc, guestSvcs, needed, wantFinalizer, backendNeeded, rts, make, RouteRef, i);
      }
      assert rts[..|rts|] == rts;
    }

    /** gatherGateways, for one listed Gateway. */
    method GatherGateway(guest: Routes.GuestGateway)
      requires Sound()
      modifies this`gateways, this`gatewayPairs, this`wantFinalizer, this`refusals
      ensures Sound()
      ensures var made := GatewayMaker(tc)(guest);
              && gateways == Put(old(gateways), made, GatewayName)
              && gatewayPairs == old(gatewayPairs) + (if made.Some? then [Pair(guest, made.value.name)] else [])
              && wantFinalizer == old(wantFinalizer) + if made.Some? then {GatewayRef(guest)} else {}
      ensures refusals == old(refusals) + GatewayNotes(tc)(guest)
    {
      hide Backs, ServicesMatch, HostObjectName, PairsSound, Noted, RouteReasons, FilterMap;
      if guest.deleting {
        return;
      }
      var ref := RefOf(GatewayKind, guest.meta);
      var host, refused := Routes.MapGateway(tc, guest);
      Refuse(ref, RouteReasons(refused));
      if host.None? {
        return;
      }
      GatewayPaired(tc, offered, guestSvcs, lbPairs, gatewayPairs, gateways.Keys, wantFinalizer, Pair(guest, host.value.name));
      gateways := gateways[host.value.name := host.value];
      assert gateways.Keys == old(gateways.Keys) + {host.value.name};
      gatewayPairs := gatewayPairs + [Pair(guest, host.value.name)];
      BacksMore(tc, offered, guestSvcs, services, backendNeeded, wantFinalizer, backendNeeded, wantFinalizer + {ref});
      wantFinalizer := wantFinalizer + {ref};
    }

    /** gatherGateways, after the list call for Gateways. */
    method GatherGateways(gws: seq<Routes.GuestGateway>)
      requires Sound() && gateways == map[] && gatewayPairs == []
      modifies this`gateways, this`gatewayPairs, this`wantFinalizer, this`refusals
      ensures Sound()
      ensures Holds(gateways, gws, GatewayMaker(tc), GatewayName) && gatewayPairs == GatewayPairsOf(tc, gws)
      ensures Pins(wantFinalizer, gws, GatewayMaker(tc), GatewayRef) && old(wantFinalizer) <= wantFinalizer
      ensures PinsOnly(old(wantFinalizer), wantFinalizer, tc, guestSvcs, backendNeeded, gws, GatewayMaker(tc), GatewayRef)
      ensures refusals == old(refusals) + FlatMap(GatewayNotes(tc), gws)
    {
      hide ServicesMatch, PairsSound, Backs, Holds, Pins, PinsOnly, GatewayMaker, GatewayNotes, Put, NeededBackend, FlatMap;
      FlatNone(GatewayNotes(tc));
      ghost var make := GatewayMaker(tc);
      NothingHeld(wantFinalizer, tc, guestSvcs, backendNeeded, make, GatewayName, GatewayRef);
      assert gws[..0] == [];
      for i := 0 to |gws|
        invariant Sound() && old(wantFinalizer) <= wantFinalizer
        invariant Holds(gateways, gws[..i], make, GatewayName) && gatewayPairs == GatewayPairsOf(tc, gws[..i])
        invariant Pins(wantFinalizer, gws[..i], make, GatewayRef)
        invariant PinsOnly(old(wantFinalizer), wantFinalizer, tc, guestSvcs, backendNeeded, gws[..i], make, GatewayRef)
        invariant refusals == old(refusals) + FlatMap(GatewayNotes(tc), gws[..i])
      {
        ghost var held, want := gateways, wantFinalizer;
        GatherGateway(gws[i]);
        HoldsMore(held, gws, make, GatewayName, i);
        PinsMore(want, wantFinalizer, gws, make, GatewayRef, i);
        PinsOnlyMore(old(wantFinalizer), want, tc, guestSvcs, backendNeeded, wantFinalizer, backendNeeded, gws, make, GatewayRef, i);
        GatewayPairsMore(tc, gws, i);
        FlatMore(GatewayNotes(tc), gws, i);
      }
      assert gws[..|gws|] == gws;
    }

    /* ----- The address limit ----- */

    // The claim's host object is there, is ours, and takes an address.
    predicate Published(slot: Slot) {
      match slot.0
      case ServiceKind =>
        && slot.1 in hostServices && OwnedBy(hostServices[slot.1].labels, tc)
        && hostServices[slot.1].spec.kind == Services.LoadBalancer
      case GatewayKind => gatewayAPI && slot.1 in hostGateways && OwnedBy(hostGateways[slot.1], tc)
      case _ => false
    }

    // An uncached read of one host object.
    method Read<T>(objects: map<HostName, T>, name: HostName) returns (a: Answer<T>)
      ensures a.Failed? || a == if name in objects then Found(objects[name]) else NotFound
    {
      var failed: bool := *;
      if failed {
        a := Failed;
      } else if name in objects {
        a := Found(objects[name]);
      } else {
        a := NotFound;
      }
    }

    /** hostObjectExists: whether the claim's host object is there, ours, and takes an address. A read
        that fails counts as absent, whatever is there. */
    method HostObjectExists(c: Claim) returns (exist: bool, ghost unread: bool)
      ensures exist ==> Published(SlotOf(c))
      ensures exist <==> Published(SlotOf(c)) && !unread
      ensures unread ==> c.ref.kind == ServiceKind || (c.ref.kind == GatewayKind && gatewayAPI)
    {
      unread := false;
      match c.ref.kind {
        case ServiceKind =>
          var have := Read(hostServices, c.hostName);
          if !have.Found? {
            unread := have.Failed?;
            return false, unread;
          }
          // A ClusterIP object under this name is a backend, and takes no address.
          exist := OwnedBy(have.value.labels, tc) && have.value.spec.kind == Services.LoadBalancer;
        case GatewayKind =>
          if !gatewayAPI {
            return false, false;
          }
          var have := Read(hostGateways, c.hostName);
          if !have.Found? {
            unread := have.Failed?;
            return false, unread;
          }
          exist := OwnedBy(have.value, tc);
        case _ =>
          exist := false;
      }
    }

    // The marking loop of applyAddressLimit.
    method MarkExisting(claims: seq<Claim>) returns (existing: seq<bool>, ghost unread: seq<bool>)
      ensures |existing| == |unread| == |claims|
      ensures forall i | 0 <= i < |claims| :: existing[i] <==> Published(SlotOf(claims[i])) && !unread[i]
    {
      existing, unread := [], [];
      for i := 0 to |claims|
        invariant |existing| == |unread| == i
        invariant forall j | 0 <= j < i :: existing[j] <==> Published(SlotOf(claims[j])) && !unread[j]
      {
        var exist, failed := HostObjectExists(claims[i]);
        existing, unread := existing + [exist], unread + [failed];
      }
    }

    // The claims, Services first, as applyAddressLimit collects them.
    method CollectClaims() returns (claims: seq<Claim>)
      ensures claims == Claims()
    {
      claims := [];
      for i := 0 to |lbPairs|
        invariant claims == ClaimsOf(lbPairs[..i], [])
      {
        claims := claims + [ServiceClaim(lbPairs[i])];
      }
      assert lbPairs[..|lbPairs|] == lbPairs;
      for i := 0 to |gatewayPairs|
        invariant claims == ClaimsOf(lbPairs, gatewayPairs[..i])
      {
        claims := claims + [GatewayClaim(gatewayPairs[i])];
      }
      assert gatewayPairs[..|gatewayPairs|] == gatewayPairs;
    }

    /** withdrawClaim, for a LoadBalancer Service: the pair goes, and the Service goes unless something
        routes to it; then it stays as a ClusterIP backend and keeps its finalizer. */
    method WithdrawService(c: Claim)
      requires c.ref.kind == ServiceKind
      modifies this`lbPairs, this`services, this`wantFinalizer
      ensures lbPairs == RemoveFirst(old(lbPairs), c.hostName)
      ensures var backend := Downgraded(tc, offered, guestSvcs, backendNeeded, c);
              services == ServicesWithout(old(services), c, backend) && wantFinalizer == WantWithout(old(wantFinalizer), c, backend)
    {
      lbPairs := Remove(lbPairs, c.hostName);
      if c.hostName in backendNeeded {
        var key := (c.ref.ns, c.ref.name);
        if key in guestSvcs {
          var r := Services.MapService(tc, guestSvcs[key], Services.ClusterIP, offered);
          if r.Ok? {
            services := services[c.hostName := r.value];
            return;
          }
        }
      }
      services := services - {c.hostName};
      wantFinalizer := wantFinalizer - {c.ref};
    }

    /** withdrawClaim, for a Gateway. */
    method WithdrawGateway(c: Claim)
      requires c.ref.kind == GatewayKind
      modifies this`gatewayPairs, this`gateways, this`wantFinalizer
      ensures gatewayPairs == RemoveFirst(old(gatewayPairs), c.hostName)
      ensures gateways == old(gateways) - {c.hostName} && wantFinalizer == old(wantFinalizer) - {c.ref}
    {
      gatewayPairs := Remove(gatewayPairs, c.hostName);
      gateways := gateways - {c.hostName};
      wantFinalizer := wantFinalizer - {c.ref};
    }

    // Distinct names, and every pair one of a Service that could be published.
    ghost predicate Tidy()
      reads this`guestSvcs, this`services, this`gateways, this`lbPairs, this`gatewayPairs, this`wantFinalizer, this`backendNeeded
    {
      Sound() && DistinctPairs(lbPairs) && DistinctPairs(gatewayPairs)
    }

    // A claim as the gather makes them.
    predicate Genuine(c: Claim)
      reads this`guestSvcs
    {
      || (c.ref.kind == ServiceKind && Publishable(tc, offered, guestSvcs, c))
      || (c.ref.kind == GatewayKind && c.hostName == HostObjectName(tc.name, c.ref.ns, c.ref.name))
    }

    // What has become of a refused claim.
    ghost predicate Withdrawn(c: Claim)
      reads this`gateways, this`wantFinalizer, this`backendNeeded, this`services
    {
      if c.ref.kind == GatewayKind then c.hostName !in gateways && c.ref !in wantFinalizer
      else if c.hostName in backendNeeded then
        c.hostName in services && services[c.hostName].spec.kind == Services.ClusterIP && c.ref in wantFinalizer
      else c.hostName !in services && c.ref !in wantFinalizer
    }

    lemma GenuineClaims(c: Claim)
      requires Sound() && c in Claims()
      ensures Genuine(c) && c.ref in wantFinalizer
    {
      if p :| p in lbPairs && ServiceClaim(p) == c {
        assert Publishes(tc, offered, guestSvcs, p);
      } else {
        var p :| p in gatewayPairs && GatewayClaim(p) == c;
      }
    }

    /** withdrawClaim. Nothing that is routed to loses its Service, and what was withdrawn before stays
        withdrawn. */
    method Withdraw(c: Claim)
      requires Closed(ingresses, routes, Backed()) && Genuine(c)
      modifies this`lbPairs, this`gatewayPairs, this`services, this`gateways, this`wantFinalizer
      ensures Closed(ingresses, routes, Backed())
      ensures lbPairs == if c.ref.kind == ServiceKind then RemoveFirst(old(lbPairs), c.hostName) else old(lbPairs)
      ensures gatewayPairs == if c.ref.kind == GatewayKind then RemoveFirst(old(gatewayPairs), c.hostName) else old(gatewayPairs)
      ensures Shrinks(old(gateways), old(wantFinalizer), gateways, wantFinalizer)
      ensures old(Tidy() && c.ref in wantFinalizer) ==> Tidy()
      ensures old(c.ref in wantFinalizer) ==> Withdrawn(c)
      ensures forall d | Genuine(d) && SlotOf(d) != SlotOf(c) && old(Withdrawn(d)) :: Withdrawn(d)
    {
      hide Closed, ServicesMatch, PairsSound, Backs, HostObjectName, Services.HostServiceFor, RemoveFirst, DistinctPairs, Downgraded, Shrinks;
      ShrinksBy(gateways, wantFinalizer, c);
      if c.ref.kind == ServiceKind {
        DowngradedExactly(tc, offered, guestSvcs, backendNeeded, c);
        ghost var backend := Downgraded(tc, offered, guestSvcs, backendNeeded, c);
        if Tidy() && c.ref in wantFinalizer {
          MatchWithdrawn(services, lbPairs, c, backend);
          BacksWithdrawn(tc, offered, guestSvcs, services, lbPairs, backendNeeded, wantFinalizer, c);
          PairsWithdrawn(tc, offered, guestSvcs, lbPairs, gatewayPairs, gateways.Keys, wantFinalizer, c);
          RemovedDistinct(lbPairs, c.hostName);
        }
        WithdrawService(c);
        ClosedGrows(ingresses, routes, old(Backed()), Backed());
      } else {
        if Tidy() && c.ref in wantFinalizer {
          BacksFewer(tc, offered, guestSvcs, services, backendNeeded, wantFinalizer, c.ref);
          GatewaysWithdrawn(tc, offered, guestSvcs, lbPairs, gatewayPairs, gateways.Keys, wantFinalizer, c);
          RemovedDistinct(gatewayPairs, c.hostName);
        }
        WithdrawGateway(c);
        assert gateways.Keys == old(gateways.Keys) - {c.hostName};
        assert Backed() == old(Backed());
      }
    }

    ghost predicate LeftAfter(lbs: seq<ServicePair>, gws: seq<GatewayPair>, gone: seq<Claim>)
      reads this`lbPairs, this`gatewayPairs
    {
      Left(lbs, gws, lbPairs, gatewayPairs, gone)
    }

    lemma StillClaimed(lbs: seq<ServicePair>, gws: seq<GatewayPair>, c: Claim, gone: seq<Claim>)
      requires Sound() && LeftAfter(lbs, gws, gone) && c in ClaimsOf(lbs, gws) && c !in gone
      ensures c in Claims() && c.ref in wantFinalizer
    {
      ClaimOrigin(lbs, gws, c);
      ClaimOrigin(lbPairs, gatewayPairs, c);
      GenuineClaims(c);
    }

    lemma NotYet(refused: seq<Claim>, i: nat)
      requires DistinctSlots(refused) && i < |refused|
      ensures refused[i] !in refused[..i] && forall j | 0 <= j < i :: SlotOf(refused[j]) != SlotOf(refused[i])
    {
    }

    lemma OneLess(lbs: seq<ServicePair>, gws: seq<GatewayPair>, lbsNow: seq<ServicePair>, gwsNow: seq<GatewayPair>,
                  c: Claim, gone: seq<Claim>)
      requires DistinctPairs(lbsNow) && DistinctPairs(gwsNow) && c in ClaimsOf(lbsNow, gwsNow)
      requires Left(lbs, gws, lbsNow, gwsNow, gone)
      requires lbPairs == if c.ref.kind == ServiceKind then RemoveFirst(lbsNow, c.hostName) else lbsNow
      requires gatewayPairs == if c.ref.kind == GatewayKind then RemoveFirst(gwsNow, c.hostName) else gwsNow
      ensures LeftAfter(lbs, gws, gone + [c])
    {
      ClaimOrigin(lbsNow, gwsNow, c);
      if c.ref.kind == ServiceKind {
        forall p ensures p in lbPairs <==> p in lbsNow && ServiceClaim(p) != c { ServiceRemoved(lbsNow, c, p); }
      } else {
        forall p ensures p in gatewayPairs <==> p in gwsNow && GatewayClaim(p) != c { GatewayRemoved(gwsNow, c, p); }
      }
    }

    // The withdrawal loop of applyAddressLimit.
    method WithdrawAll(refused: seq<Claim>, reason: Reason)
      requires Sound() && Closed(ingresses, routes, Backed()) && forall c | c in refused :: c in Claims()
      modifies this`lbPairs, this`gatewayPairs, this`services, this`gateways, this`wantFinalizer, this`refusals
      ensures refusals == old(refusals) + Tagged(refused, reason)
      ensures Closed(ingresses, routes, Backed())
      ensures Shrinks(old(gateways), old(wantFinalizer), gateways, wantFinalizer)
      ensures old(Distinct(Claims())) && DistinctSlots(refused) ==>
                && Tidy() && LeftAfter(old(lbPairs), old(gatewayPairs), refused)
                && forall c | c in refused :: Withdrawn(c)
    {
      hide Closed, ServicesMatch, PairsSound, Backs, Withdrawn, Genuine, Distinct, ClaimsOf, RemoveFirst, Tagged, Left, Published, DistinctSlots;
      ghost var lbs, gws, distinct := lbPairs, gatewayPairs, Distinct(Claims()) && DistinctSlots(refused);
      forall c | c in refused ensures Genuine(c) { GenuineClaims(c); }
      if distinct { PairsDistinct(lbs, gws); }
      TaggedNone(reason);
      NoneGone(lbs, gws);
      assert refused[..0] == [];
      for i := 0 to |refused|
        invariant Closed(ingresses, routes, Backed()) && forall c | c in refused :: Genuine(c)
        invariant distinct ==> Tidy() && LeftAfter(lbs, gws, refused[..i])
        invariant distinct ==> forall j | 0 <= j < i :: Withdrawn(refused[j])
        invariant refusals == old(refusals) + Tagged(refused[..i], reason)
        invariant Shrinks(old(gateways), old(wantFinalizer), gateways, wantFinalizer)
      {
        hide Shrinks;
        ghost var gatewaysNow, want := gateways, wantFinalizer;
        var c := refused[i];
        refusals := refusals + [(c.ref, reason)];
        TaggedMore(refused[..i], reason, c);
        assert refused[..i + 1] == refused[..i] + [c];
        ghost var lbsNow, gwsNow := lbPairs, gatewayPairs;
        if distinct {
          NotYet(refused, i);
          StillClaimed(lbs, gws, c, refused[..i]);
        }
        Withdraw(c);
        ShrinksOn(old(gateways), old(wantFinalizer), gatewaysNow, want, gateways, wantFinalizer);
        if distinct {
          OneLess(lbs, gws, lbsNow, gwsNow, c, refused[..i]);
        }
      }
      assert refused[..|refused|] == refused;
    }

    // What a limit leaves: exactly the admitted claims are published.
    ghost predicate Enforced(before: seq<Claim>, adm: seq<Claim>)
      reads this`guestSvcs, this`services, this`gateways, this`lbPairs, this`gatewayPairs, this`wantFinalizer, this`backendNeeded
    {
      && Sound()
      && (forall c :: c in Claims() <==> c in adm)
      && (forall k :: IsPublic(services, k) <==> (ServiceKind, k) in SlotsOf(adm))
      && (forall k :: k in gateways <==> (GatewayKind, k) in SlotsOf(adm))
      && (forall c | c in before && c !in adm :: Withdrawn(c))
    }

    lemma EnforcedFrom(lbs: seq<ServicePair>, gws: seq<GatewayPair>, adm: seq<Claim>, refused: seq<Claim>)
      requires Sound() && LeftAfter(lbs, gws, refused) && forall c | c in refused :: Withdrawn(c)
      requires forall c | c in ClaimsOf(lbs, gws) :: c in refused <==> c !in adm
      requires forall c | c in adm :: c in ClaimsOf(lbs, gws)
      ensures Enforced(ClaimsOf(lbs, gws), adm)
    {
      forall c ensures c in Claims() <==> c in adm {
        ClaimOrigin(lbs, gws, c);
        ClaimOrigin(lbPairs, gatewayPairs, c);
      }
      forall k
        ensures k in PairNames(lbPairs) <==> (ServiceKind, k) in SlotsOf(adm)
        ensures k in PairNames(gatewayPairs) <==> (GatewayKind, k) in SlotsOf(adm)
      {
        NamesOfClaims(lbPairs, gatewayPairs, k);
      }
    }

    // The outcome of applying a limit to claims of which some slots were found published.
    ghost predicate Limited(before: seq<Claim>, noted: seq<Note>, held: set<Slot>, limit: int)
      reads this
    {
      var sorted := Ordering.Sort(before, Before);
      var adm := Admitted(sorted, held, limit);
      && Enforced(before, adm) && loadBalancers == |adm|
      && refusals == noted + Tagged(RefusedClaims(sorted, held, limit), OverLimit(limit, |adm|))
    }

    // Which of the published endpoints stay wanted: those within the limit, and those whose read was
    // answered.
    ghost predicate PublishedStay(before: seq<Claim>, unread: set<Slot>, limit: int)
      reads this`lbPairs, this`gatewayPairs
    {
      var sorted := Ordering.Sort(before, Before);
      forall i | 0 <= i < |sorted| && Published(SlotOf(sorted[i])) ::
        sorted[i] in Claims() <==> i < limit || SlotOf(sorted[i]) !in unread
    }

    lemma LimitedPublished(before: seq<Claim>, noted: seq<Note>, held: set<Slot>, unread: set<Slot>, limit: int)
      requires Limited(before, noted, held, limit) && Distinct(before)
      requires forall c | c in before :: SlotOf(c) in held <==> Published(SlotOf(c)) && SlotOf(c) !in unread
      ensures PublishedStay(before, unread, limit)
    {
      hide Ordering.Sort, Admitted, Published, Withdrawn;
      var sorted := Gathered(before, before);
      forall i | 0 <= i < |sorted| && Published(SlotOf(sorted[i]))
        ensures sorted[i] in Claims() <==> i < limit || SlotOf(sorted[i]) !in unread
      {
        AdmittedExactly(sorted, held, limit, i);
        assert sorted[i] in before;
      }
    }

    // The marking and counting loops of applyAddressLimit, over the sorted claims.
    method Decide(claims: seq<Claim>, limit: int)
      returns (admitted: nat, refused: seq<Claim>, ghost held: set<Slot>, ghost unread: set<Slot>)
      ensures forall c | c in refused :: c in claims
      ensures forall slot | slot in held :: Published(slot)
      ensures forall c | c in claims && Published(SlotOf(c)) && SlotOf(c) !in unread :: SlotOf(c) in held
      ensures DistinctSlots(claims) ==>
                && admitted == |Admitted(claims, held, limit)| && refused == RefusedClaims(claims, held, limit)
                && (forall c | c in claims :: SlotOf(c) in held <==> Published(SlotOf(c)) && SlotOf(c) !in unread)
    {
      hide Published, DistinctSlots, Admitted, RefusedClaims;
      var existing, failed := MarkExisting(claims);
      held, unread := ReadsAreSlots(claims, existing, failed);
      admitted, refused := Admit(claims, existing, limit, held);
    }

    /** applyAddressLimit. Whatever is refused, everything routed to keeps its Service. With distinct
        host names, the public Services and Gateways that remain wanted are exactly the admitted claims;
        and a published one is dropped exactly if it sorts beyond the limit and its read failed. */
    method ApplyAddressLimit() returns (ghost held: set<Slot>, ghost unread: set<Slot>)
      requires Sound() && Closed(ingresses, routes, Backed())
      modifies this`lbPairs, this`gatewayPairs, this`services, this`gateways, this`wantFinalizer, this`refusals, this`loadBalancers
      ensures Closed(ingresses, routes, Backed())
      ensures forall slot | slot in held :: Published(slot)
      ensures tc.limit.Some? ==> forall c | c in old(Claims()) && Published(SlotOf(c)) && SlotOf(c) !in unread :: SlotOf(c) in held
      ensures Shrinks(old(gateways), old(wantFinalizer), gateways, wantFinalizer)
      ensures tc.limit.None? ==>
                && Sound() && loadBalancers == |Claims()|
                && lbPairs == old(lbPairs) && gatewayPairs == old(gatewayPairs) && services == old(services)
                && gateways == old(gateways) && wantFinalizer == old(wantFinalizer)
      ensures tc.limit.Some? && old(Distinct(Claims())) ==>
                && Limited(old(Claims()), old(refusals), held, tc.limit.value)
                && PublishedStay(old(Claims()), unread, tc.limit.value)
    {
      hide Closed, Sound, Shrinks, Withdrawn, Limited, Published, LeftAfter, PublishedStay, DistinctSlots;
      hide Admitted, RefusedClaims, Distinct, ClaimsOf, Ordering.Sort, Tagged;
      ShrinksNone(gateways, wantFinalizer);
      ghost var lbs, gws := lbPairs, gatewayPairs;
      var collected := CollectClaims();
      var claims := Ordering.Sort(collected, Before);
      SameMembers(claims, collected);
      if tc.limit.None? {
        loadBalancers := |claims|;
        held, unread := {}, {};
        return;
      }
      var admitted, refused;
      admitted, refused, held, unread := Decide(claims, tc.limit.value);
      loadBalancers := admitted;
      ghost var distinct := Distinct(Claims());
      if distinct {
        var _ := Gathered(collected, collected);
        Verdicts(collected, held, tc.limit.value);
      }
      WithdrawAll(refused, OverLimit(tc.limit.value, admitted));
      if distinct {
        LimitedFrom(lbs, gws, refused, old(refusals), held, unread, tc.limit.value);
      }
    }

    lemma LimitedFrom(lbs: seq<ServicePair>, gws: seq<GatewayPair>, refused: seq<Claim>, noted: seq<Note>,
                      held: set<Slot>, unread: set<Slot>, limit: int)
      requires Sound() && LeftAfter(lbs, gws, refused) && forall c | c in refused :: Withdrawn(c)
      requires var before := ClaimsOf(lbs, gws); var sorted := Ordering.Sort(before, Before);
               && Distinct(before) && refused == RefusedClaims(sorted, held, limit)
               && loadBalancers == |Admitted(sorted, held, limit)|
               && refusals == noted + Tagged(refused, OverLimit(limit, loadBalancers))
               && forall c | c in before :: SlotOf(c) in held <==> Published(SlotOf(c)) && SlotOf(c) !in unread
      ensures Limited(ClaimsOf(lbs, gws), noted, held, limit) && PublishedStay(ClaimsOf(lbs, gws), unread, limit)
    {
      hide Published, Withdrawn, Enforced, LeftAfter, PublishedStay, Distinct, Ordering.Sort;
      var before := ClaimsOf(lbs, gws);
      var sorted := Ordering.Sort(before, Before);
      Verdicts(before, held, limit);
      EnforcedFrom(lbs, gws, Admitted(sorted, held, limit), refused);
      LimitedPublished(before, noted, held, unread, limit);
    }

    // Claims that are found published, and claims whose read failed, as slots.
    lemma ReadsAreSlots(claims: seq<Claim>, existing: seq<bool>, failed: seq<bool>) returns (held: set<Slot>, unread: set<Slot>)
      requires |existing| == |failed| == |claims|
      requires forall i | 0 <= i < |claims| :: existing[i] <==> Published(SlotOf(claims[i])) && !failed[i]
      ensures forall slot | slot in held :: Published(slot)
      ensures forall c | c in claims && Published(SlotOf(c)) && SlotOf(c) !in unread :: SlotOf(c) in held
      ensures DistinctSlots(claims) ==>
                && (forall i | 0 <= i < |claims| :: existing[i] <==> SlotOf(claims[i]) in held)
                && (forall c | c in claims :: SlotOf(c) in held <==> Published(SlotOf(c)) && SlotOf(c) !in unread)
    {
      hide Published;
      held := set i | 0 <= i < |claims| && existing[i] :: SlotOf(claims[i]);
      unread := set i | 0 <= i < |claims| && failed[i] :: SlotOf(claims[i]);
      if DistinctSlots(claims) {
        MarksAreSlots(claims, existing, held);
        MarksAreSlots(claims, failed, unread);
      }
    }

    // What the listed objects have come to: what is wanted is what they are made into, with `made` for
    // the Gateways before the limit, and each has its finalizer; the backends are those that are needed.
    ghost predicate Gathering(ings: seq<Ingresses.GuestIngress>, gws: seq<Routes.GuestGateway>, rts: seq<Routes.GuestRoute>,
                              made: map<HostName, Routes.HostGateway>)
      reads this`guestSvcs, this`ingresses, this`routes, this`wantFinalizer, this`backendNeeded
    {
      && Holds(ingresses, ings, IngressMaker(tc, offered, guestSvcs), IngressName)
      && Holds(made, gws, GatewayMaker(tc), GatewayName)
      && Holds(routes, rts, RouteMaker(tc, offered, guestSvcs), RouteName)
      && Pins(wantFinalizer, ings, IngressMaker(tc, offered, guestSvcs), IngressRef)
      && Pins(wantFinalizer, rts, RouteMaker(tc, offered, guestSvcs), RouteRef)
      && (forall k | k in backendNeeded :: Needed(tc, offered, guestSvcs, ings, rts, k))
    }

    // What is noted of the listed objects, in order.
    function ListNotes(ings: seq<Ingresses.GuestIngress>, gws: seq<Routes.GuestGateway>, rts: seq<Routes.GuestRoute>): seq<Note>
      reads this`guestSvcs
    {
      FlatMap(IngressNotes(tc, offered, guestSvcs), ings) + FlatMap(GatewayNotes(tc), gws) + FlatMap(RouteNotes(tc, offered, guestSvcs), rts)
    }

    // No finalizer is wanted for nothing.
    ghost predicate AllJustified(ings: seq<Ingresses.GuestIngress>, rts: seq<Routes.GuestRoute>)
      reads this`guestSvcs, this`wantFinalizer, this`backendNeeded, this`lbPairs, this`gatewayPairs
    {
      forall r | r in wantFinalizer :: Justified(tc, offered, guestSvcs, backendNeeded, lbPairs, gatewayPairs, ings, rts, r)
    }

    /** The gather of one pass, as `run` orders it. */
    method GatherAll(svcs: seq<Services.GuestService>, ings: seq<Ingresses.GuestIngress>,
                     gws: seq<Routes.GuestGateway>, rts: seq<Routes.GuestRoute>,
                     syncServices: bool, syncIngresses: bool, syncGateways: bool)
      returns (ghost refused: seq<Note>)
      requires Empty()
      modifies this
      ensures Sound() && Closed(ingresses, routes, Backed())
      ensures Lists(guestSvcs, svcs)
      ensures Gathering(InScope(ings, syncIngresses), InScope(gws, syncGateways && gatewayAPI), InScope(rts, syncGateways && gatewayAPI), gateways)
      ensures AllJustified(InScope(ings, syncIngresses), InScope(rts, syncGateways && gatewayAPI))
      ensures NotedExactly(tc, offered, guestSvcs, if syncServices then guestSvcs.Keys else {}, refused)
      ensures refusals == refused + ListNotes(InScope(ings, syncIngresses), InScope(gws, syncGateways && gatewayAPI), InScope(rts, syncGateways && gatewayAPI))
      ensures forall c :: c in Claims() <==> Asked(tc, offered, guestSvcs, syncServices, InScope(gws, syncGateways && gatewayAPI), c)
      ensures Apart(tc, guestSvcs, InScope(gws, syncGateways && gatewayAPI)) ==> Distinct(Claims())
    {
      hide Closed, Sound, Holds, Pins, PinsOnly, PairsExactly, IngressMaker, RouteMaker, GatewayMaker;
      hide Justified, IngressNeeds, RouteNeeds, Asked, Apart, Publishes, Distinct, PairRefs, GatewayPairsOf, ClaimsOf;
      hide NotedExactly, FlatMap, IngressNotes, RouteNotes, GatewayNotes, Lists;
      ListServices(svcs);
      GatherServices(syncServices);
      refused := refusals;
      FlatNone(IngressNotes(tc, offered, guestSvcs));
      FlatNone(GatewayNotes(tc));
      FlatNone(RouteNotes(tc, offered, guestSvcs));
      ghost var want := wantFinalizer;
      ghost var makeIngress, makeRoute := IngressMaker(tc, offered, guestSvcs), RouteMaker(tc, offered, guestSvcs);
      NothingHeld(want, tc, guestSvcs, {}, makeIngress, IngressName, IngressRef);
      NoPairs(tc);
      if syncIngresses {
        GatherIngresses(ings);
      }
      ghost var wantNow, needed := wantFinalizer, backendNeeded;
      ghost var wantThen := wantNow;
      NothingHeld(wantNow, tc, guestSvcs, needed, makeRoute, RouteName, RouteRef);
      NothingHeld(wantNow, tc, guestSvcs, needed, GatewayMaker(tc), GatewayName, GatewayRef);
      if syncGateways && gatewayAPI {
        GatherGateways(gws);
        wantThen := wantFinalizer;
        GatherRoutes(rts);
      }
      ghost var ings', gws', rts' := InScope(ings, syncIngresses), InScope(gws, syncGateways && gatewayAPI), InScope(rts, syncGateways && gatewayAPI);
      forall r | r in wantFinalizer
        ensures Justified(tc, offered, guestSvcs, backendNeeded, lbPairs, gatewayPairs, ings', rts', r)
      {
        JustifiedFrom(tc, offered, guestSvcs, lbPairs, ings', gws', rts', needed, backendNeeded, wantNow, wantThen, wantFinalizer, r);
      }
      PinsStay(wantNow, wantFinalizer, ings', makeIngress, IngressRef);
      ClaimsAfter(syncServices, gws');
    }

    lemma ClaimsAfter(sync: bool, gws: seq<Routes.GuestGateway>)
      requires Sound() && gatewayPairs == GatewayPairsOf(tc, gws)
      requires PairsExactly(tc, offered, guestSvcs, if sync then guestSvcs.Keys else {}, lbPairs)
      ensures forall c :: c in Claims() <==> Asked(tc, offered, guestSvcs, sync, gws, c)
      ensures Apart(tc, guestSvcs, gws) ==> Distinct(Claims())
    {
      hide PairsExactly, Asked, Apart, Distinct, ClaimsOf, GatewayPairsOf, Backs, ServicesMatch, Publishes;
      PairsPublish();
      forall c ensures c in Claims() <==> Asked(tc, offered, guestSvcs, sync, gws, c) {
        ClaimsExactly(tc, offered, guestSvcs, sync, gws, lbPairs, c);
      }
      if Apart(tc, guestSvcs, gws) {
        ApartDistinct(tc, offered, guestSvcs, if sync then guestSvcs.Keys else {}, gws, lbPairs);
      }
    }

    lemma PairsPublish()
      requires Sound()
      ensures forall p | p in lbPairs :: Publishes(tc, offered, guestSvcs, p)
    {
    }

    lemma JustifiedAfter(lbs: seq<ServicePair>, gws: seq<GatewayPair>, want: set<ObjRef>, adm: seq<Claim>,
                         ings: seq<Ingresses.GuestIngress>, rts: seq<Routes.GuestRoute>, r: ObjRef)
      requires Enforced(ClaimsOf(lbs, gws), adm) && wantFinalizer <= want && r in wantFinalizer
      requires forall p | p in lbs :: Publishes(tc, offered, guestSvcs, p)
      requires Justified(tc, offered, guestSvcs, backendNeeded, lbs, gws, ings, rts, r)
      ensures Justified(tc, offered, guestSvcs, backendNeeded, lbPairs, gatewayPairs, ings, rts, r)
    {
      hide IngressMaker, RouteMaker, HostObjectName, Services.HostServiceFor, ClaimsOf, Sound, IsPublic;
      if r in PairRefs(lbs) {
        var p :| p in lbs && RefOf(ServiceKind, p.guest.meta) == r;
        var c := ServiceClaim(p);
        ClaimOrigin(lbs, gws, c);
        ClaimOrigin(lbPairs, gatewayPairs, c);
        ServiceClaimed(tc, offered, guestSvcs, p);
        assert Publishes(tc, offered, guestSvcs, p);
      } else if p :| p in gws && RefOf(GatewayKind, p.guest.meta) == r {
        var c := GatewayClaim(p);
        ClaimOrigin(lbs, gws, c);
        ClaimOrigin(lbPairs, gatewayPairs, c);
      }
    }

    lemma AllJustifiedAfter(lbs: seq<ServicePair>, gws: seq<GatewayPair>, want: set<ObjRef>, noted: seq<Note>, held: set<Slot>, limit: int,
                            ings: seq<Ingresses.GuestIngress>, rts: seq<Routes.GuestRoute>)
      requires Limited(ClaimsOf(lbs, gws), noted, held, limit) && wantFinalizer <= want
      requires forall p | p in lbs :: Publishes(tc, offered, guestSvcs, p)
      requires forall r | r in want :: Justified(tc, offered, guestSvcs, backendNeeded, lbs, gws, ings, rts, r)
      ensures Sound() && AllJustified(ings, rts)
    {
      hide Justified, Publishes, ClaimsOf, Admitted, RefusedClaims, Ordering.Sort;
      var adm := Admitted(Ordering.Sort(ClaimsOf(lbs, gws), Before), held, limit);
      forall r | r in wantFinalizer ensures Justified(tc, offered, guestSvcs, backendNeeded, lbPairs, gatewayPairs, ings, rts, r) {
        JustifiedAfter(lbs, gws, want, adm, ings, rts, r);
      }
    }

    /** The gather and the limit of one pass, as `run` orders them. What the host is to hold refers to
        nothing that is not there. The Ingresses and HTTPRoutes wanted are exactly what the listed ones
        are made into, and so are the Gateways, but for the refused. The claims on an address are exactly
        those of the Services and Gateways that ask for one, and they are distinct if the objects are. And
        where they are, or without a limit, every wanted Service is a pair's or a backend that is needed,
        everything wanted has its finalizer, and nothing else has. What is refused is noted, and nothing else
        is: that of the Services in some order, and the rest in the order it was listed. */
    method Run(svcs: seq<Services.GuestService>, ings: seq<Ingresses.GuestIngress>,
               gws: seq<Routes.GuestGateway>, rts: seq<Routes.GuestRoute>,
               syncServices: bool, syncIngresses: bool, syncGateways: bool)
      returns (ghost held: set<Slot>, ghost unread: set<Slot>, ghost claims: seq<Claim>, ghost noted: seq<Note>,
               ghost refused: seq<Note>, ghost made: map<HostName, Routes.HostGateway>)
      requires Empty()
      modifies this
      ensures Closed(ingresses, routes, Backed()) && Lists(guestSvcs, svcs)
      ensures Gathering(InScope(ings, syncIngresses), InScope(gws, syncGateways && gatewayAPI), InScope(rts, syncGateways && gatewayAPI), made)
      ensures forall k | k in gateways :: k in made && gateways[k] == made[k]
      ensures NotedExactly(tc, offered, guestSvcs, if syncServices then guestSvcs.Keys else {}, refused)
      ensures noted == refused + ListNotes(InScope(ings, syncIngresses), InScope(gws, syncGateways && gatewayAPI), InScope(rts, syncGateways && gatewayAPI))
      ensures forall c :: c in claims <==> Asked(tc, offered, guestSvcs, syncServices, InScope(gws, syncGateways && gatewayAPI), c)
      ensures Apart(tc, guestSvcs, InScope(gws, syncGateways && gatewayAPI)) ==> Distinct(claims)
      ensures tc.limit.None? || Distinct(claims) ==>
                Sound() && AllJustified(InScope(ings, syncIngresses), InScope(rts, syncGateways && gatewayAPI))
      ensures tc.limit.None? ==> gateways == made && Claims() == claims
      ensures forall slot | slot in held :: Published(slot)
      ensures tc.limit.Some? && Distinct(claims) ==>
                Limited(claims, noted, held, tc.limit.value) && PublishedStay(claims, unread, tc.limit.value)
    {
      hide Closed, PairsSound, ServicesMatch, Limited, Published, PublishedStay, Backs, Holds, Pins, Needed, Justified, Asked, Apart, Distinct;
      hide Publishes, ClaimsOf, Shrinks, Lists, IngressMaker, RouteMaker, GatewayMaker, Indexed, NotedExactly, ListNotes;
      refused := GatherAll(svcs, ings, gws, rts, syncServices, syncIngresses, syncGateways);
      claims, noted, made := Claims(), refusals, gateways;
      ghost var lbs, gwps, want := lbPairs, gatewayPairs, wantFinalizer;
      PairsPublish();
      held, unread := ApplyAddressLimit();
      ShrunkGathering(want, InScope(ings, syncIngresses), InScope(gws, syncGateways && gatewayAPI), InScope(rts, syncGateways && gatewayAPI), made);
      if tc.limit.Some? && Distinct(claims) {
        AllJustifiedAfter(lbs, gwps, want, noted, held, tc.limit.value, InScope(ings, syncIngresses), InScope(rts, syncGateways && gatewayAPI));
      }
    }

    lemma ShrunkGathering(want: set<ObjRef>, ings: seq<Ingresses.GuestIngress>, gws: seq<Routes.GuestGateway>, rts: seq<Routes.GuestRoute>,
                          made: map<HostName, Routes.HostGateway>)
      requires Shrinks(made, want, gateways, wantFinalizer)
      requires Holds(ingresses, ings, IngressMaker(tc, offered, guestSvcs), IngressName)
      requires Holds(made, gws, GatewayMaker(tc), GatewayName)
      requires Holds(routes, rts, RouteMaker(tc, offered, guestSvcs), RouteName)
      requires Pins(want, ings, IngressMaker(tc, offered, guestSvcs), IngressRef)
      requires Pins(want, rts, RouteMaker(tc, offered, guestSvcs), RouteRef)
      requires forall k | k in backendNeeded :: Needed(tc, offered, guestSvcs, ings, rts, k)
      ensures Gathering(ings, gws, rts, made) && wantFinalizer <= want
      ensures forall k | k in gateways :: k in made && gateways[k] == made[k]
    {
      hide Holds, Needed, IngressMaker, RouteMaker, GatewayMaker;
    }
  }
}
