/** The applying and pruning half of a pass, internal/syncer/pass.go: a pass in which nothing fails and
    nobody interferes turns the host's objects into exactly the desired ones, and is idempotent; and
    every pass keeps to what module HostStore allows. */
module HostPass {
  import opened Names
  import opened Ownership
  import opened HostStore
  import Services

  /* ----- What an update makes of an object ----- */

  type PortKey = (string, int)

  function KeyOf(p: Services.HostPort): PortKey {
    (p.protocol, p.port)
  }

  // The NodePort of the last port with the key, 0 without one.
  function NodePortOf(have: seq<Services.HostPort>, key: PortKey): int {
    if have == [] then 0
    else if KeyOf(have[|have| - 1]) == key then have[|have| - 1].nodePort
    else NodePortOf(have[..|have| - 1], key)
  }

  function ReconciledPorts(have: seq<Services.HostPort>, want: seq<Services.HostPort>): seq<Services.HostPort> {
    seq(|want|, i requires 0 <= i < |want| => want[i].(nodePort := NodePortOf(have, KeyOf(want[i]))))
  }

  predicate DistinctPorts(ports: seq<Services.HostPort>) {
    forall i, j | 0 <= i < j < |ports| :: KeyOf(ports[i]) != KeyOf(ports[j])
  }

  /** reconcilePorts, as it is written: an index of the old ports, then the new ports in order. */
  method ReconcilePorts(have: seq<Services.HostPort>, want: seq<Services.HostPort>) returns (out: seq<Services.HostPort>)
    ensures out == ReconciledPorts(have, want)
  {
    var byKey: map<PortKey, int> := map[];
    for i := 0 to |have|
      invariant forall key :: NodePortOf(have[..i], key) == if key in byKey then byKey[key] else 0
    {
      assert have[..i + 1][..i] == have[..i];
      byKey := byKey[KeyOf(have[i]) := have[i].nodePort];
    }
    assert have[..|have|] == have;
    out := [];
    for i := 0 to |want|
      invariant out == ReconciledPorts(have, want)[..i]
    {
      var key := KeyOf(want[i]);
      out := out + [want[i].(nodePort := if key in byKey then byKey[key] else 0)];
    }
  }

  lemma {:induction false} NodePortFound(have: seq<Services.HostPort>, j: nat)
    requires DistinctPorts(have) && j < |have|
    ensures NodePortOf(have, KeyOf(have[j])) == have[j].nodePort
  {
    var n := |have| - 1;
    if j < n {
      assert KeyOf(have[n]) != KeyOf(have[j]);
      assert have[..n][j] == have[j];
      NodePortFound(have[..n], j);
    }
  }

  lemma {:induction false} NodePortAbsent(have: seq<Services.HostPort>, key: PortKey)
    requires forall j | 0 <= j < |have| :: KeyOf(have[j]) != key
    ensures NodePortOf(have, key) == 0
  {
    if have != [] { NodePortAbsent(have[..|have| - 1], key); }
  }

  /** A port that survives an update keeps its NodePort; a new one has none yet; everything else about
      the ports is as wanted. */
  lemma NodePortsSurvive(have: seq<Services.HostPort>, want: seq<Services.HostPort>, i: nat)
    requires DistinctPorts(have) && i < |want|
    ensures var out := ReconciledPorts(have, want);
            && |out| == |want| && out[i].(nodePort := 0) == want[i].(nodePort := 0)
            && (forall j | 0 <= j < |have| && KeyOf(have[j]) == KeyOf(want[i]) :: out[i].nodePort == have[j].nodePort)
            && ((forall j | 0 <= j < |have| :: KeyOf(have[j]) != KeyOf(want[i])) ==> out[i].nodePort == 0)
  {
    forall j | 0 <= j < |have| && KeyOf(have[j]) == KeyOf(want[i])
      ensures ReconciledPorts(have, want)[i].nodePort == have[j].nodePort
    {
      NodePortFound(have, j);
    }
    if forall j | 0 <= j < |have| :: KeyOf(have[j]) != KeyOf(want[i]) {
      NodePortAbsent(have, KeyOf(want[i]));
    }
  }

  // The new spec of an object that exists. A Service keeps what the host has allocated.
  function Merged(have: Body, want: Body): Body {
    if have.ServiceBody? && want.ServiceBody? then
      var h, w := have.service, want.service;
      ServiceBody(h.(
        kind := w.kind, selector := w.selector, ports := ReconciledPorts(h.ports, w.ports),
        families := if w.families != [] then w.families else h.families,
        policy := if w.families != [] then w.policy else h.policy))
    else want
  }

  // What the API server makes of a spec it stores: it may assign NodePorts, clear those of a ClusterIP
  // Service, and default the families.
  predicate Assigned(sent: Body, stored: Body) {
    if sent.ServiceBody? then
      && stored.ServiceBody?
      && var s, t := sent.service, stored.service;
         && t.kind == s.kind && t.selector == s.selector && |t.ports| == |s.ports|
         && (forall i | 0 <= i < |s.ports| ::
               t.ports[i].(nodePort := 0) == s.ports[i].(nodePort := 0)
               && (s.ports[i].nodePort != 0 && t.ports[i].nodePort != s.ports[i].nodePort ==>
                     s.kind == Services.ClusterIP && t.ports[i].nodePort == 0))
         && (s.families != [] ==> t.families == s.families && t.policy == s.policy)
    else stored == sent
  }

  // Services whose ports the API accepts: no two with the same protocol and number.
  predicate WellFormed(b: Body) {
    b.ServiceBody? ==> DistinctPorts(b.service.ports)
  }

  lemma AssignedPorts(sent: seq<Services.HostPort>, stored: seq<Services.HostPort>)
    requires DistinctPorts(sent) && |stored| == |sent|
    requires forall i | 0 <= i < |sent| :: stored[i].(nodePort := 0) == sent[i].(nodePort := 0)
    ensures DistinctPorts(stored) && ReconciledPorts(stored, sent) == stored
  {
    assert forall i | 0 <= i < |sent| :: KeyOf(stored[i]) == KeyOf(sent[i]);
    forall i | 0 <= i < |sent| ensures ReconciledPorts(stored, sent)[i] == stored[i] {
      NodePortFound(stored, i);
    }
  }

  // A freshly made object is as wanted.
  lemma CreatedSettles(want: Body, stored: Body)
    requires WellFormed(want) && Assigned(want, stored)
    ensures Merged(stored, want) == stored
  {
    if want.ServiceBody? { AssignedPorts(want.service.ports, stored.service.ports); }
  }

  /** Applying what is wanted to an object it was applied to before changes nothing, whatever the host
      assigned in between. */
  lemma AppliedSettles(have: Body, want: Body, stored: Body)
    requires WellFormed(want) && have.ServiceBody? == want.ServiceBody? && Assigned(Merged(have, want), stored)
    ensures Merged(stored, want) == stored
  {
    if want.ServiceBody? {
      var w := want.service.ports;
      var sent := ReconciledPorts(have.service.ports, w);
      assert forall i | 0 <= i < |w| :: KeyOf(sent[i]) == KeyOf(w[i]);
      AssignedPorts(sent, stored.service.ports);
      assert ReconciledPorts(stored.service.ports, w) == ReconciledPorts(stored.service.ports, sent);
    }
  }

  /* ----- What a quiet pass comes to ----- */

  type Slot = (Kind, HostName)
  datatype Wanted = Wanted(labels: Labels, body: Body)

  predicate Managed(kind: Kind, gatewayAPI: bool) {
    kind == ServiceKind || kind == IngressKind || (gatewayAPI && (kind == GatewayKind || kind == RouteKind))
  }

  predicate Owned(objects: map<Key, Object>, k: Key, t: Tenant) {
    k in objects && Owner(objects[k].labels) == t
  }

  // The name is taken by somebody else's object.
  predicate Foreign(objects: map<Key, Object>, k: Key, t: Tenant) {
    k in objects && Owner(objects[k].labels) != t
  }

  predicate Same(before: map<Key, Object>, after: map<Key, Object>, k: Key) {
    (k in before <==> k in after) && (k in before ==> after[k] == before[k])
  }

  // One wanted object, before and after.
  predicate Applied(before: map<Key, Object>, after: map<Key, Object>, k: Key, w: Wanted, t: Tenant) {
    if k !in before then k in after && after[k].labels == w.labels && Assigned(w.body, after[k].body)
    else if Owner(before[k].labels) != t then Same(before, after, k)
    else
      && k in after && after[k].uid == before[k].uid && after[k].labels == MergeLabels(before[k].labels, w.labels)
      && Assigned(Merged(before[k].body, w.body), after[k].body)
      && (MergeLabels(before[k].labels, w.labels) == before[k].labels && Merged(before[k].body, w.body) == before[k].body ==>
            after[k] == before[k])
  }

  /** Every pass without failures and interference: the tenant's objects are the desired ones, except
      where a name is taken; each is as wanted; nobody else's object is touched. */
  ghost predicate Refined(before: map<Key, Object>, after: map<Key, Object>, want: map<Slot, Wanted>, tc: TenantCluster, gatewayAPI: bool) {
    var t := (tc.name, tc.namespace);
    && (forall k | k in before && Owner(before[k].labels) != t :: Same(before, after, k))
    && (forall k: Key | k.ns != tc.hostNamespace || !Managed(k.kind, gatewayAPI) :: Same(before, after, k))
    && (forall k | k in after :: k in before || (k.kind, k.name) in want)
    && (forall k: Key | k.ns == tc.hostNamespace && Managed(k.kind, gatewayAPI) ::
          Owned(after, k, t) <==> (k.kind, k.name) in want && !Foreign(before, k, t))
    && (forall slot: Slot | slot in want :: Applied(before, after, Key(tc.hostNamespace, slot.0, slot.1), want[slot], t))
  }

  /* ----- What arrives of a wanted Service ----- */

  // A Service on the host that is what was wanted of it, field by field.
  predicate AsWanted(want: Services.ServiceSpec, on: Services.ServiceSpec) {
    && on.kind == want.kind && on.selector == want.selector && |on.ports| == |want.ports|
    && (forall i | 0 <= i < |want.ports| ::
          && on.ports[i].name == want.ports[i].name && on.ports[i].protocol == want.ports[i].protocol
          && on.ports[i].port == want.ports[i].port && on.ports[i].target == want.ports[i].target)
    && (want.families != [] ==> on.families == want.families && on.policy == want.policy)
  }

  // And that kept what the host had allocated for it: the families, where none were asked for, and the
  // NodePorts of the ports that are still there, unless it is a ClusterIP now.
  predicate Keeps(had: Services.ServiceSpec, want: Services.ServiceSpec, on: Services.ServiceSpec) {
    && (want.families == [] && had.families != [] ==> on.families == had.families && on.policy == had.policy)
    && (DistinctPorts(had.ports) && want.kind != Services.ClusterIP ==>
          forall i, j | 0 <= i < |on.ports| && 0 <= j < |had.ports| && had.ports[j].nodePort != 0
                        && had.ports[j].protocol == on.ports[i].protocol && had.ports[j].port == on.ports[i].port ::
            on.ports[i].nodePort == had.ports[j].nodePort)
  }

  lemma MergedArrives(had: Services.ServiceSpec, want: Services.ServiceSpec, on: Services.ServiceSpec)
    requires Assigned(Merged(ServiceBody(had), ServiceBody(want)), ServiceBody(on))
    ensures AsWanted(want, on) && Keeps(had, want, on)
  {
    var sent := ReconciledPorts(had.ports, want.ports);
    assert Merged(ServiceBody(had), ServiceBody(want)).service.ports == sent;
    forall i | 0 <= i < |on.ports|
      ensures on.ports[i].(nodePort := 0) == want.ports[i].(nodePort := 0)
    {
      assert on.ports[i].(nodePort := 0) == sent[i].(nodePort := 0);
    }
    if DistinctPorts(had.ports) && want.kind != Services.ClusterIP {
      forall i, j | 0 <= i < |on.ports| && 0 <= j < |had.ports| && had.ports[j].nodePort != 0
                    && had.ports[j].protocol == on.ports[i].protocol && had.ports[j].port == on.ports[i].port
        ensures on.ports[i].nodePort == had.ports[j].nodePort
      {
        assert on.ports[i].(nodePort := 0) == want.ports[i].(nodePort := 0);
        NodePortsSurvive(had.ports, want.ports, i);
        assert KeyOf(had.ports[j]) == KeyOf(want.ports[i]);
      }
    }
  }

  /** A quiet pass brings every Service of the tenant to what is wanted of it: the type, the selector and
      the ports in order, and the address families if any are asked for. What it had been allocated
      before, an existing one keeps. */
  lemma ServiceArrives(before: map<Key, Object>, after: map<Key, Object>, want: map<Slot, Wanted>, tc: TenantCluster, gatewayAPI: bool, name: HostName)
    requires Refined(before, after, want, tc, gatewayAPI) && Typed(before, want)
    requires Owned(after, Key(tc.hostNamespace, ServiceKind, name), (tc.name, tc.namespace))
    ensures var k, slot := Key(tc.hostNamespace, ServiceKind, name), (ServiceKind, name);
            && slot in want && want[slot].body.ServiceBody? && after[k].body.ServiceBody?
            && AsWanted(want[slot].body.service, after[k].body.service)
            && (k in before ==>
                  before[k].body.ServiceBody? && Keeps(before[k].body.service, want[slot].body.service, after[k].body.service))
            && forall l | l in want[slot].labels :: l in after[k].labels && after[k].labels[l] == want[slot].labels[l]
  {
    hide Merged, Assigned, AsWanted, Keeps;
    var t, k, slot := (tc.name, tc.namespace), Key(tc.hostNamespace, ServiceKind, name), (ServiceKind, name);
    assert slot in want && Applied(before, after, k, want[slot], t);
    if k in before {
      assert Owner(before[k].labels) == t;
      AssignedService(Merged(before[k].body, want[slot].body), after[k].body);
      MergedKind(before[k].body, want[slot].body);
      MergedArrives(before[k].body.service, want[slot].body.service, after[k].body.service);
    } else {
      AssignedService(want[slot].body, after[k].body);
      CreatedArrives(want[slot].body.service, after[k].body.service);
    }
  }

  lemma AssignedService(sent: Body, stored: Body)
    requires Assigned(sent, stored)
    ensures sent.ServiceBody? <==> stored.ServiceBody?
  {
  }

  lemma MergedKind(had: Body, want: Body)
    ensures Merged(had, want).ServiceBody? <==> want.ServiceBody?
  {
  }

  lemma CreatedArrives(want: Services.ServiceSpec, on: Services.ServiceSpec)
    requires Assigned(ServiceBody(want), ServiceBody(on))
    ensures AsWanted(want, on)
  {
    forall i | 0 <= i < |want.ports| ensures on.ports[i].(nodePort := 0) == want.ports[i].(nodePort := 0) { }
  }

  // The host is as this pass would leave it.
  ghost predicate Settled(objects: map<Key, Object>, want: map<Slot, Wanted>, tc: TenantCluster, gatewayAPI: bool) {
    var t := (tc.name, tc.namespace);
    && (forall k: Key | k.ns == tc.hostNamespace && Managed(k.kind, gatewayAPI) && Owned(objects, k, t) :: (k.kind, k.name) in want)
    && (forall slot: Slot | slot in want ::
          var k := Key(tc.hostNamespace, slot.0, slot.1);
          k in objects && (Owner(objects[k].labels) == t ==>
            && MergeLabels(objects[k].labels, want[slot].labels) == objects[k].labels
            && Merged(objects[k].body, want[slot].body) == objects[k].body))
  }

  // The API gives every kind its own type, and rejects Services with clashing ports.
  ghost predicate Typed(objects: map<Key, Object>, want: map<Slot, Wanted>) {
    && (forall k | k in objects :: objects[k].body.ServiceBody? <==> k.kind == ServiceKind)
    && (forall slot: Slot | slot in want :: (want[slot].body.ServiceBody? <==> slot.0 == ServiceKind) && WellFormed(want[slot].body))
  }

  ghost predicate WantedBy(want: map<Slot, Wanted>, tc: TenantCluster, gatewayAPI: bool) {
    forall slot: Slot | slot in want :: Managed(slot.0, gatewayAPI) && Owner(want[slot].labels) == (tc.name, tc.namespace)
  }

  /** Idempotence, first half: what a pass leaves is settled. */
  lemma RefinedSettles(before: map<Key, Object>, after: map<Key, Object>, want: map<Slot, Wanted>, tc: TenantCluster, gatewayAPI: bool)
    requires Refined(before, after, want, tc, gatewayAPI) && Typed(before, want) && WantedBy(want, tc, gatewayAPI)
    ensures Settled(after, want, tc, gatewayAPI)
  {
    forall slot: Slot | slot in want
      ensures var k := Key(tc.hostNamespace, slot.0, slot.1);
              k in after && (Owner(after[k].labels) == (tc.name, tc.namespace) ==>
                && MergeLabels(after[k].labels, want[slot].labels) == after[k].labels
                && Merged(after[k].body, want[slot].body) == after[k].body)
    {
      var k := Key(tc.hostNamespace, slot.0, slot.1);
      assert Applied(before, after, k, want[slot], (tc.name, tc.namespace));
      if k !in before {
        CreatedSettles(want[slot].body, after[k].body);
      } else if Owner(before[k].labels) == (tc.name, tc.namespace) {
        AppliedSettles(before[k].body, want[slot].body, after[k].body);
      }
    }
  }

  /** Idempotence, second half: on a settled host a pass changes nothing, not even a resource version. */
  lemma SettledStays(before: map<Key, Object>, after: map<Key, Object>, want: map<Slot, Wanted>, tc: TenantCluster, gatewayAPI: bool)
    requires Refined(before, after, want, tc, gatewayAPI) && Settled(before, want, tc, gatewayAPI)
    ensures after == before
  {
    var t := (tc.name, tc.namespace);
    forall k ensures Same(before, after, k) {
      if k.ns == tc.hostNamespace && Managed(k.kind, gatewayAPI) && !Foreign(before, k, t) {
        assert Owned(after, k, t) <==> (k.kind, k.name) in want;
        if (k.kind, k.name) in want {
          assert Applied(before, after, Key(tc.hostNamespace, k.kind, k.name), want[(k.kind, k.name)], t);
        }
      }
    }
    assert after.Keys == before.Keys by {
      forall k ensures k in after <==> k in before { assert Same(before, after, k); }
    }
    forall k | k in before ensures after[k] == before[k] { assert Same(before, after, k); }
  }
}
