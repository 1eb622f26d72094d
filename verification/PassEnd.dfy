/** The two halves of a pass together, internal/syncer/pass.go: what module DesiredState wants, applied as
    module HostSlice applies it, leaves a host on which nothing of the tenant's routes into the void. */
module PassEnd {
  import opened Names
  import opened Ownership
  import opened HostStore
  import opened HostPass
  import DesiredState
  import Services
  import Ingresses
  import Routes

  // The desired maps of a pass, each by slot, and all of them as one.
  function ServicesFrom(services: map<HostName, Services.HostService>): map<Slot, Wanted> {
    map k | k in services :: (ServiceKind, k) := Wanted(services[k].labels, ServiceBody(services[k].spec))
  }

  function IngressesFrom(ingresses: map<HostName, Ingresses.HostIngress>): map<Slot, Wanted> {
    map k | k in ingresses :: (IngressKind, k) := Wanted(ingresses[k].labels, IngressBody(ingresses[k].spec))
  }

  function GatewaysFrom(gateways: map<HostName, Routes.HostGateway>): map<Slot, Wanted> {
    map k | k in gateways :: (GatewayKind, k) := Wanted(gateways[k].labels, GatewayBody(gateways[k].spec))
  }

  function RoutesFrom(routes: map<HostName, Routes.HostRoute>): map<Slot, Wanted> {
    map k | k in routes :: (RouteKind, k) := Wanted(routes[k].labels, RouteBody(routes[k].spec))
  }

  function WantedFrom(services: map<HostName, Services.HostService>, ingresses: map<HostName, Ingresses.HostIngress>,
                      gateways: map<HostName, Routes.HostGateway>, routes: map<HostName, Routes.HostRoute>): map<Slot, Wanted>
  {
    ServicesFrom(services) + IngressesFrom(ingresses) + GatewaysFrom(gateways) + RoutesFrom(routes)
  }

  // The host has a Service of that name.
  predicate Served(objects: map<Key, Object>, ns: string, name: HostName) {
    Key(ns, ServiceKind, name) in objects
  }

  // Everything an Ingress of the tenant refers to is there; and everything an HTTPRoute does, where
  // there are such.
  ghost predicate NothingDangles(objects: map<Key, Object>, tc: TenantCluster, gatewayAPI: bool) {
    forall k: Key | k.ns == tc.hostNamespace && Owned(objects, k, (tc.name, tc.namespace)) ::
      && (objects[k].body.IngressBody? ==>
            forall r, p | r in objects[k].body.ingress.rules && p in r.paths :: Served(objects, tc.hostNamespace, p.service))
      && (gatewayAPI && objects[k].body.RouteBody? ==>
            forall n | Routes.Refers(objects[k].body.route.rules, n) :: Served(objects, tc.hostNamespace, n))
  }

  // Kinds have bodies of their own type.
  ghost predicate KindsMatch(objects: map<Key, Object>) {
    forall k | k in objects ::
      && (objects[k].body.ServiceBody? <==> k.kind == ServiceKind) && (objects[k].body.IngressBody? <==> k.kind == IngressKind)
      && (objects[k].body.GatewayBody? <==> k.kind == GatewayKind) && (objects[k].body.RouteBody? <==> k.kind == RouteKind)
  }

  // A wanted Service ends up on the host, ours or somebody else's.
  lemma WantedIsServed(before: map<Key, Object>, after: map<Key, Object>, want: map<Slot, Wanted>, tc: TenantCluster, gatewayAPI: bool, k: HostName)
    requires Refined(before, after, want, tc, gatewayAPI) && (ServiceKind, k) in want
    ensures Served(after, tc.hostNamespace, k)
  {
    assert Applied(before, after, Key(tc.hostNamespace, ServiceKind, k), want[(ServiceKind, k)], (tc.name, tc.namespace));
  }

  // What the host holds of an Ingress or route that is wanted and ours is the wanted spec.
  lemma SpecArrives(before: map<Key, Object>, after: map<Key, Object>, want: map<Slot, Wanted>, tc: TenantCluster, gatewayAPI: bool, k: Key)
    requires Refined(before, after, want, tc, gatewayAPI)
    requires k.ns == tc.hostNamespace && Managed(k.kind, gatewayAPI) && Owned(after, k, (tc.name, tc.namespace))
    ensures (k.kind, k.name) in want && (!want[(k.kind, k.name)].body.ServiceBody? ==> after[k].body == want[(k.kind, k.name)].body)
  {
    assert Applied(before, after, Key(tc.hostNamespace, k.kind, k.name), want[(k.kind, k.name)], (tc.name, tc.namespace));
  }

  // The four maps keep apart.
  lemma WantedOf(services: map<Slot, Wanted>, ingresses: map<Slot, Wanted>, gateways: map<Slot, Wanted>, routes: map<Slot, Wanted>, x: Slot)
    requires forall y | y in services :: y.0 == ServiceKind
    requires forall y | y in ingresses :: y.0 == IngressKind
    requires forall y | y in gateways :: y.0 == GatewayKind
    requires forall y | y in routes :: y.0 == RouteKind
    ensures var want := services + ingresses + gateways + routes;
            && (x.0 == ServiceKind ==> (x in want <==> x in services) && (x in want ==> want[x] == services[x]))
            && (x.0 == IngressKind ==> (x in want <==> x in ingresses) && (x in want ==> want[x] == ingresses[x]))
            && (x.0 == GatewayKind ==> (x in want <==> x in gateways) && (x in want ==> want[x] == gateways[x]))
            && (x.0 == RouteKind ==> (x in want <==> x in routes) && (x in want ==> want[x] == routes[x]))
  {
  }

  lemma WantedParts(services: map<HostName, Services.HostService>, ingresses: map<HostName, Ingresses.HostIngress>,
                    gateways: map<HostName, Routes.HostGateway>, routes: map<HostName, Routes.HostRoute>, k: HostName)
    ensures var want := WantedFrom(services, ingresses, gateways, routes);
            && ((ServiceKind, k) in want <==> k in services)
            && (k in services ==> want[(ServiceKind, k)].body == ServiceBody(services[k].spec))
            && ((IngressKind, k) in want <==> k in ingresses)
            && (k in ingresses ==> want[(IngressKind, k)].body == IngressBody(ingresses[k].spec))
            && ((GatewayKind, k) in want <==> k in gateways)
            && (k in gateways ==> want[(GatewayKind, k)].body == GatewayBody(gateways[k].spec))
            && ((RouteKind, k) in want <==> k in routes)
            && (k in routes ==> want[(RouteKind, k)].body == RouteBody(routes[k].spec))
  {
    var s, i, g, r := ServicesFrom(services), IngressesFrom(ingresses), GatewaysFrom(gateways), RoutesFrom(routes);
    WantedOf(s, i, g, r, (ServiceKind, k));
    WantedOf(s, i, g, r, (IngressKind, k));
    WantedOf(s, i, g, r, (GatewayKind, k));
    WantedOf(s, i, g, r, (RouteKind, k));
  }

  // The tenant's Service of that name on the host is a LoadBalancer: it takes an address.
  predicate TakesAddress(objects: map<Key, Object>, tc: TenantCluster, name: HostName) {
    var k := Key(tc.hostNamespace, ServiceKind, name);
    Owned(objects, k, (tc.name, tc.namespace)) && objects[k].body.ServiceBody?
    && objects[k].body.service.kind == Services.LoadBalancer
  }

  /** After a quiet pass every managed object of the tenant on the host is a desired one, with the
      desired contents. */
  lemma HostIsDesired(before: map<Key, Object>, after: map<Key, Object>, tc: TenantCluster,
                      services: map<HostName, Services.HostService>, ingresses: map<HostName, Ingresses.HostIngress>,
                      gateways: map<HostName, Routes.HostGateway>, routes: map<HostName, Routes.HostRoute>, gatewayAPI: bool, k: Key)
    requires Refined(before, after, WantedFrom(services, ingresses, gateways, routes), tc, gatewayAPI)
    requires Typed(before, WantedFrom(services, ingresses, gateways, routes))
    requires k.ns == tc.hostNamespace && Managed(k.kind, gatewayAPI) && Owned(after, k, (tc.name, tc.namespace))
    ensures match k.kind
            case ServiceKind =>
              && k.name in services && after[k].body.ServiceBody?
              && AsWanted(services[k.name].spec, after[k].body.service)
            case IngressKind => k.name in ingresses && after[k].body == IngressBody(ingresses[k.name].spec)
            case GatewayKind => k.name in gateways && after[k].body == GatewayBody(gateways[k.name].spec)
            case RouteKind => k.name in routes && after[k].body == RouteBody(routes[k.name].spec)
            case ClaimKind => false
  {
    hide WantedFrom, Typed, Refined, AsWanted;
    var want := WantedFrom(services, ingresses, gateways, routes);
    WantedParts(services, ingresses, gateways, routes, k.name);
    if k.kind == ServiceKind {
      ServiceArrives(before, after, want, tc, gatewayAPI, k.name);
    } else {
      SpecArrives(before, after, want, tc, gatewayAPI, k);
    }
  }

  /** After a quiet pass the tenant's LoadBalancer Services on the host are exactly the wanted public
      ones, but for names that are taken: an endpoint that was refused gives its address back, also
      when it stays as a backend, and an admitted one has it. */
  lemma PublicExactly(before: map<Key, Object>, after: map<Key, Object>, tc: TenantCluster,
                      services: map<HostName, Services.HostService>, ingresses: map<HostName, Ingresses.HostIngress>,
                      gateways: map<HostName, Routes.HostGateway>, routes: map<HostName, Routes.HostRoute>,
                      gatewayAPI: bool, name: HostName)
    requires Refined(before, after, WantedFrom(services, ingresses, gateways, routes), tc, gatewayAPI)
    requires Typed(before, WantedFrom(services, ingresses, gateways, routes))
    ensures TakesAddress(after, tc, name) <==>
              DesiredState.IsPublic(services, name) && !Foreign(before, Key(tc.hostNamespace, ServiceKind, name), (tc.name, tc.namespace))
  {
    hide WantedFrom, Typed;
    var k, want := Key(tc.hostNamespace, ServiceKind, name), WantedFrom(services, ingresses, gateways, routes);
    WantedParts(services, ingresses, gateways, routes, name);
    OwnedExactly(before, after, want, tc, gatewayAPI, k);
    if Owned(after, k, (tc.name, tc.namespace)) {
      ServiceArrives(before, after, want, tc, gatewayAPI, name);
    }
  }

  lemma OwnedExactly(before: map<Key, Object>, after: map<Key, Object>, want: map<Slot, Wanted>, tc: TenantCluster, gatewayAPI: bool, k: Key)
    requires Refined(before, after, want, tc, gatewayAPI) && k.ns == tc.hostNamespace && Managed(k.kind, gatewayAPI)
    ensures Owned(after, k, (tc.name, tc.namespace)) <==> (k.kind, k.name) in want && !Foreign(before, k, (tc.name, tc.namespace))
  {
  }

  // Every Service in a set of wanted ones is on the host.
  lemma AllServed(before: map<Key, Object>, after: map<Key, Object>, tc: TenantCluster,
                  services: map<HostName, Services.HostService>, ingresses: map<HostName, Ingresses.HostIngress>,
                  gateways: map<HostName, Routes.HostGateway>, routes: map<HostName, Routes.HostRoute>, needed: set<HostName>,
                  gatewayAPI: bool)
    requires Refined(before, after, WantedFrom(services, ingresses, gateways, routes), tc, gatewayAPI)
    ensures forall n | n in services.Keys * needed :: Served(after, tc.hostNamespace, n)
  {
    forall n | n in services.Keys * needed ensures Served(after, tc.hostNamespace, n) {
      hide WantedFrom, Refined;
      WantedParts(services, ingresses, gateways, routes, n);
      WantedIsServed(before, after, WantedFrom(services, ingresses, gateways, routes), tc, gatewayAPI, n);
    }
  }

  // One owned object routes only to what is backed.
  lemma RoutesToBacked(before: map<Key, Object>, after: map<Key, Object>, tc: TenantCluster,
                       services: map<HostName, Services.HostService>, ingresses: map<HostName, Ingresses.HostIngress>,
                       gateways: map<HostName, Routes.HostGateway>, routes: map<HostName, Routes.HostRoute>, backed: set<HostName>, k: Key,
                       gatewayAPI: bool)
    requires Refined(before, after, WantedFrom(services, ingresses, gateways, routes), tc, gatewayAPI)
    requires DesiredState.Closed(ingresses, routes, backed) && KindsMatch(after)
    requires k.ns == tc.hostNamespace && Owned(after, k, (tc.name, tc.namespace))
    ensures after[k].body.IngressBody? ==> forall r, p | r in after[k].body.ingress.rules && p in r.paths :: p.service in backed
    ensures gatewayAPI && after[k].body.RouteBody? ==> forall n | Routes.Refers(after[k].body.route.rules, n) :: n in backed
  {
    hide WantedFrom, Refined;
    WantedParts(services, ingresses, gateways, routes, k.name);
    if after[k].body.IngressBody? || (gatewayAPI && after[k].body.RouteBody?) {
      SpecArrives(before, after, WantedFrom(services, ingresses, gateways, routes), tc, gatewayAPI, k);
    }
  }

  /** After a quiet pass, every Service that an Ingress of the tenant names exists on the host, and so does
      every one that an HTTPRoute of it names, if the host has the Gateway API; also when the address limit
      has just taken its address away. */
  lemma HostIsClosed(before: map<Key, Object>, after: map<Key, Object>, tc: TenantCluster,
                     services: map<HostName, Services.HostService>, ingresses: map<HostName, Ingresses.HostIngress>,
                     gateways: map<HostName, Routes.HostGateway>, routes: map<HostName, Routes.HostRoute>, needed: set<HostName>,
                  gatewayAPI: bool)
    requires Refined(before, after, WantedFrom(services, ingresses, gateways, routes), tc, gatewayAPI)
    requires DesiredState.Closed(ingresses, routes, services.Keys * needed)
    requires KindsMatch(after)
    ensures NothingDangles(after, tc, gatewayAPI)
  {
    hide WantedFrom, Refined, DesiredState.Closed, KindsMatch, Served;
    AllServed(before, after, tc, services, ingresses, gateways, routes, needed, gatewayAPI);
    forall k: Key | k.ns == tc.hostNamespace && Owned(after, k, (tc.name, tc.namespace))
      ensures after[k].body.IngressBody? ==>
                forall r, p | r in after[k].body.ingress.rules && p in r.paths :: Served(after, tc.hostNamespace, p.service)
      ensures gatewayAPI && after[k].body.RouteBody? ==>
                forall n | Routes.Refers(after[k].body.route.rules, n) :: Served(after, tc.hostNamespace, n)
    {
      RoutesToBacked(before, after, tc, services, ingresses, gateways, routes, services.Keys * needed, k, gatewayAPI);
    }
  }
}
