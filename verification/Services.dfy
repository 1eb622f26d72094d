/** From a guest Service to a host Service, internal/syncer/service.go; and which of the requested
    address families are still missing, internal/syncer/writeback.go. */
module Services {
  import opened Wrappers
  import opened Text
  import opened Names
  import opened Ownership

  datatype ServiceType = ClusterIP | NodePort | LoadBalancer | ExternalName

  const IPV4 := "IPv4"
  const IPV6 := "IPv6"
  const SINGLE_STACK := "SingleStack"
  const PREFER_DUAL_STACK := "PreferDualStack"
  const REQUIRE_DUAL_STACK := "RequireDualStack"

  datatype GuestPort = GuestPort(name: string, protocol: string, port: int, nodePort: int)
  // `families` and `policy` are the spec's; the requests are the two annotations.
  datatype GuestService = GuestService(
    meta: Meta, created: int, deleting: bool, kind: ServiceType, lbClass: Option<string>,
    ports: seq<GuestPort>, families: seq<string>, policy: Option<string>,
    familiesRequest: Option<string>, policyRequest: Option<string>)

  datatype HostPort = HostPort(name: string, protocol: string, port: int, target: int, nodePort: int)
  datatype ServiceSpec = ServiceSpec(
    kind: ServiceType, selector: Labels, ports: seq<HostPort>, families: seq<string>, policy: Option<string>)
  datatype HostService = HostService(name: HostName, labels: Labels, spec: ServiceSpec)

  datatype Refusal =
    | NoNodePort(port: GuestPort) | NoPorts
    | BadFamily(text: string) | FamilyTwice(family: string) | NoFamily
    | BadPolicy(text: string) | Unsupported(family: string)

  // Why a backend reference cannot be resolved.
  datatype Unresolved = NotFound | BeingDeleted | Unmappable(why: Refusal)

  predicate WantsLoadBalancer(tc: TenantCluster, svc: GuestService) {
    svc.kind == LoadBalancer && svc.lbClass == if tc.lbClass == "" then None else Some(tc.lbClass)
  }

  /* ----- Address families ----- */

  predicate IsFamily(f: string) {
    f == IPV4 || f == IPV6
  }

  // parseFamilies on the comma-separated parts, up to its last check.
  function FamiliesOf(parts: seq<string>): Result<seq<string>, Refusal> {
    if parts == [] then Ok([])
    else
      match FamiliesOf(parts[..|parts| - 1])
      case Refused(why) => Refused(why)
      case Ok(out) =>
        var f := TrimSpace(parts[|parts| - 1]);
        if !IsFamily(f) then Refused(BadFamily(f))
        else if f in out then Refused(FamilyTwice(f))
        else Ok(out + [f])
  }

  function ParsedFamilies(parts: seq<string>): Result<seq<string>, Refusal> {
    if FamiliesOf(parts) == Ok([]) then Refused(NoFamily) else FamiliesOf(parts)
  }

  lemma {:induction false} RefusalStands(parts: seq<string>, i: nat)
    requires i <= |parts| && FamiliesOf(parts[..i]).Refused?
    ensures FamiliesOf(parts) == FamiliesOf(parts[..i])
    decreases |parts| - i
  {
    if i == |parts| {
      assert parts[..i] == parts;
    } else {
      assert parts[..i + 1][..i] == parts[..i];
      RefusalStands(parts, i + 1);
    }
  }

  /** parseFamilies, as it is written: the first bad part ends it. */
  method ParseFamilies(parts: seq<string>) returns (r: Result<seq<string>, Refusal>)
    ensures r == ParsedFamilies(parts)
  {
    var out := [];
    for i := 0 to |parts|
      invariant FamiliesOf(parts[..i]) == Ok(out)
    {
      assert parts[..i + 1][..i] == parts[..i];
      var f := TrimSpace(parts[i]);
      if f != IPV4 && f != IPV6 {
        RefusalStands(parts, i + 1);
        return Refused(BadFamily(f));
      }
      if f in out {
        RefusalStands(parts, i + 1);
        return Refused(FamilyTwice(f));
      }
      out := out + [f];
    }
    assert parts[..|parts|] == parts;
    if out == [] {
      return Refused(NoFamily);
    }
    return Ok(out);
  }

  function Trimmed(parts: seq<string>): seq<string> {
    seq(|parts|, i requires 0 <= i < |parts| => TrimSpace(parts[i]))
  }

  predicate GoodList(t: seq<string>) {
    && (forall i | 0 <= i < |t| :: IsFamily(t[i]))
    && (forall i, j | 0 <= i < j < |t| :: t[i] != t[j])
  }

  lemma GoodListGrows(t: seq<string>, f: string)
    ensures GoodList(t + [f]) <==> GoodList(t) && IsFamily(f) && f !in t
  {
    var s := t + [f];
    assert forall i | 0 <= i < |t| :: s[i] == t[i];
    assert s[|t|] == f;
    if GoodList(s) {
      forall i | 0 <= i < |t| ensures IsFamily(t[i]) && t[i] != f { assert IsFamily(s[i]) && s[i] != s[|t|]; }
      forall i, j | 0 <= i < j < |t| ensures t[i] != t[j] { assert s[i] != s[j]; }
    }
  }

  lemma {:induction false} FamiliesTrimmed(parts: seq<string>)
    ensures FamiliesOf(parts).Ok? ==> FamiliesOf(parts).value == Trimmed(parts)
    ensures FamiliesOf(parts).Ok? <==> GoodList(Trimmed(parts))
  {
    if parts != [] {
      var n := |parts| - 1;
      FamiliesTrimmed(parts[..n]);
      GoodListGrows(Trimmed(parts[..n]), TrimSpace(parts[n]));
      assert Trimmed(parts) == Trimmed(parts[..n]) + [TrimSpace(parts[n])];
    }
  }

  // There are two families.
  lemma GoodLists(t: seq<string>)
    ensures GoodList(t) <==> t in [[], [IPV4], [IPV6], [IPV4, IPV6], [IPV6, IPV4]]
  {
    assert IPV4[3] != IPV6[3];
    assert |t| == 1 ==> t == [t[0]];
    assert |t| == 2 ==> t == [t[0], t[1]];
    assert |t| > 2 && GoodList(t) ==> IsFamily(t[0]) && IsFamily(t[1]) && IsFamily(t[2]);
  }

  /** A list of families is accepted exactly when, blanks aside, it is one of four: no empty list, no
      repetition, nothing unknown. */
  lemma FamiliesMeaning(parts: seq<string>)
    ensures ParsedFamilies(parts).Ok? <==> Trimmed(parts) in [[IPV4], [IPV6], [IPV4, IPV6], [IPV6, IPV4]]
    ensures ParsedFamilies(parts).Ok? ==> ParsedFamilies(parts).value == Trimmed(parts)
  {
    FamiliesTrimmed(parts);
    GoodLists(Trimmed(parts));
  }

  predicate IsPolicy(p: string) {
    p == SINGLE_STACK || p == PREFER_DUAL_STACK || p == REQUIRE_DUAL_STACK
  }

  // What the guest asks for on its public address: the annotation first, the spec second.
  function RequestedAddressFamilies(svc: GuestService): Result<(seq<string>, Option<string>), Refusal> {
    var parsed := if svc.familiesRequest.Some? then ParsedFamilies(Split(svc.familiesRequest.value, ',')) else Ok(svc.families);
    match parsed
    case Refused(why) => Refused(why)
    case Ok(families) =>
      var derived :=
        if svc.familiesRequest.None? then svc.policy
        else Some(if |families| > 1 then REQUIRE_DUAL_STACK else SINGLE_STACK);
      if svc.policyRequest.None? then Ok((families, derived))
      else if IsPolicy(svc.policyRequest.value) then Ok((families, svc.policyRequest))
      else Refused(BadPolicy(svc.policyRequest.value))
  }

  // The first requested family the host cannot allocate. An unknown host offers everything.
  function UnsupportedFamily(want: seq<string>, offered: seq<string>): Option<string> {
    if offered == [] || want == [] then None
    else if want[0] !in offered then Some(want[0])
    else UnsupportedFamily(want[1..], offered)
  }

  lemma {:induction false} UnsupportedMeaning(want: seq<string>, offered: seq<string>)
    ensures UnsupportedFamily(want, offered).None? <==> offered == [] || forall f | f in want :: f in offered
  {
    if offered != [] && want != [] {
      UnsupportedMeaning(want[1..], offered);
      assert want == [want[0]] + want[1..];
    }
  }

  /* ----- mapService ----- */

  function CarriedPort(p: GuestPort): HostPort {
    HostPort(p.name, p.protocol, p.port, p.nodePort, 0)
  }

  function CarriedPorts(ports: seq<GuestPort>): seq<HostPort> {
    seq(|ports|, i requires 0 <= i < |ports| => CarriedPort(ports[i]))
  }

  // The first port without a NodePort.
  function Unreachable(ports: seq<GuestPort>): Option<GuestPort> {
    if ports == [] then None
    else if ports[0].nodePort == 0 then Some(ports[0])
    else Unreachable(ports[1..])
  }

  function HostServiceFor(tc: TenantCluster, svc: GuestService, kind: ServiceType, offered: seq<string>)
    : Result<HostService, Refusal>
  {
    if Unreachable(svc.ports).Some? then Refused(NoNodePort(Unreachable(svc.ports).value))
    else if svc.ports == [] then Refused(NoPorts)
    else
      var host := HostService(
        HostObjectName(tc.name, svc.meta.ns, svc.meta.name), OwnershipLabels(tc, svc.meta),
        ServiceSpec(kind, tc.selector, CarriedPorts(svc.ports), [], None));
      if kind != LoadBalancer then Ok(host)
      else
        match RequestedAddressFamilies(svc)
        case Refused(why) => Refused(why)
        case Ok((families, policy)) =>
          match UnsupportedFamily(families, offered)
          case Some(f) => Refused(Unsupported(f))
          case None => Ok(host.(spec := host.spec.(families := families, policy := policy)))
  }

  /** mapService, as it is written. */
  method MapService(tc: TenantCluster, svc: GuestService, kind: ServiceType, offered: seq<string>)
    returns (r: Result<HostService, Refusal>)
    ensures r == HostServiceFor(tc, svc, kind, offered)
  {
    var ports := [];
    for i := 0 to |svc.ports|
      invariant ports == CarriedPorts(svc.ports)[..i]
      invariant Unreachable(svc.ports) == Unreachable(svc.ports[i..])
    {
      var p := svc.ports[i];
      if p.nodePort == 0 {
        return Refused(NoNodePort(p));
      }
      ports := ports + [HostPort(p.name, p.protocol, p.port, p.nodePort, 0)];
    }
    if |ports| == 0 {
      return Refused(NoPorts);
    }
    assert CarriedPorts(svc.ports)[..|ports|] == CarriedPorts(svc.ports);
    var spec := ServiceSpec(kind, tc.selector, ports, [], None);
    if kind == LoadBalancer {
      match RequestedAddressFamilies(svc) {
        case Refused(why) => return Refused(why);
        case Ok((families, policy)) =>
          var unsupported := UnsupportedFamily(families, offered);
          if unsupported.Some? {
            return Refused(Unsupported(unsupported.value));
          }
          spec := spec.(families := families, policy := policy);
      }
    }
    return Ok(HostService(HostObjectName(tc.name, svc.meta.ns, svc.meta.name), OwnershipLabels(tc, svc.meta), spec));
  }

  lemma {:induction false} ReachableMeaning(ports: seq<GuestPort>)
    ensures Unreachable(ports).None? <==> forall p | p in ports :: p.nodePort != 0
  {
    if ports != [] {
      ReachableMeaning(ports[1..]);
      assert ports == [ports[0]] + ports[1..];
    }
  }

  /** When a Service can be carried: it has ports, the host can reach each of them, and for a public
      address the request is well formed and within what the host can allocate. */
  lemma AcceptedExactly(tc: TenantCluster, svc: GuestService, kind: ServiceType, offered: seq<string>)
    ensures HostServiceFor(tc, svc, kind, offered).Ok? <==>
              && svc.ports != [] && (forall p | p in svc.ports :: p.nodePort != 0)
              && (kind == LoadBalancer ==>
                    && RequestedAddressFamilies(svc).Ok?
                    && (offered == [] || forall f | f in RequestedAddressFamilies(svc).value.0 :: f in offered))
  {
    ReachableMeaning(svc.ports);
    if RequestedAddressFamilies(svc).Ok? {
      UnsupportedMeaning(RequestedAddressFamilies(svc).value.0, offered);
    }
  }

  // One port: the host listens where the guest does, and hands over to the NodePort of the VMs.
  predicate Forwards(p: HostPort, g: GuestPort) {
    && p.name == g.name && p.protocol == g.protocol && p.port == g.port
    && p.target == g.nodePort != 0
    && p.nodePort == 0
  }

  /** What an accepted Service is on the host, field by field: its own name and owner, the type asked
      for, the VMs of the cluster behind it, and the guest's ports in order, each handed over to its
      NodePort. A backend carries no address request. */
  lemma CarriedFaithfully(tc: TenantCluster, svc: GuestService, kind: ServiceType, offered: seq<string>)
    requires HostServiceFor(tc, svc, kind, offered).Ok?
    ensures var host := HostServiceFor(tc, svc, kind, offered).value;
            && host.name == HostObjectName(tc.name, svc.meta.ns, svc.meta.name)
            && host.labels == OwnershipLabels(tc, svc.meta)
            && host.spec.kind == kind && host.spec.selector == tc.selector
            && |host.spec.ports| == |svc.ports| > 0
            && (forall i | 0 <= i < |svc.ports| :: Forwards(host.spec.ports[i], svc.ports[i]))
            && (kind != LoadBalancer ==> host.spec.families == [] && host.spec.policy == None)
  {
    ReachableMeaning(svc.ports);
    assert forall i | 0 <= i < |svc.ports| :: svc.ports[i] in svc.ports;
  }

  // The name of a host Service is that of its guest, whatever it is for.
  lemma NamedAlike(tc: TenantCluster, svc: GuestService, kind: ServiceType, kind': ServiceType, offered: seq<string>)
    requires HostServiceFor(tc, svc, kind, offered).Ok?
    ensures HostServiceFor(tc, svc, kind, offered).value.name == HostObjectName(tc.name, svc.meta.ns, svc.meta.name)
    ensures HostServiceFor(tc, svc, kind', offered).Ok? ==>
              HostServiceFor(tc, svc, kind', offered).value.name == HostServiceFor(tc, svc, kind, offered).value.name
  {
  }

  /** The address request of a published Service: each of the two annotations stands for its part of
      the spec, and a part without an annotation is the guest's own. */
  lemma RequestHonoured(tc: TenantCluster, svc: GuestService, offered: seq<string>)
    requires HostServiceFor(tc, svc, LoadBalancer, offered).Ok?
    ensures var spec := HostServiceFor(tc, svc, LoadBalancer, offered).value.spec;
            && (svc.familiesRequest.None? ==> spec.families == svc.families)
            && (svc.policyRequest.Some? ==>
                  spec.policy == svc.policyRequest
                  && svc.policyRequest.value in [SINGLE_STACK, PREFER_DUAL_STACK, REQUIRE_DUAL_STACK])
            && (svc.policyRequest.None? && svc.familiesRequest.None? ==> spec.policy == svc.policy)
            && (offered == [] || forall f | f in spec.families :: f in offered)
  {
    UnsupportedMeaning(RequestedAddressFamilies(svc).value.0, offered);
  }

  /** What can be published can also serve as a backend, under the same name and with the same ports:
      taking an address away never takes reachability away. */
  lemma PublishedIsBackend(tc: TenantCluster, svc: GuestService, offered: seq<string>)
    requires HostServiceFor(tc, svc, LoadBalancer, offered).Ok?
    ensures HostServiceFor(tc, svc, ClusterIP, offered).Ok?
    ensures var lb, backend := HostServiceFor(tc, svc, LoadBalancer, offered).value, HostServiceFor(tc, svc, ClusterIP, offered).value;
            && lb.name == backend.name && lb.labels == backend.labels
            && lb.spec.ports == backend.spec.ports && lb.spec.selector == backend.spec.selector
            && lb.spec.kind == LoadBalancer && backend.spec.kind == ClusterIP
  {
  }

  /** The families annotation is honoured to the letter: an accepted Service asks the host for exactly
      the listed families, at most two, each of them one the host has (if it said), and for more than
      one it does not settle for one unless told to. */
  lemma FamiliesHonoured(tc: TenantCluster, svc: GuestService, offered: seq<string>)
    requires HostServiceFor(tc, svc, LoadBalancer, offered).Ok? && svc.familiesRequest.Some?
    ensures var spec := HostServiceFor(tc, svc, LoadBalancer, offered).value.spec;
            && spec.families == Trimmed(Split(svc.familiesRequest.value, ','))
            && spec.families in [[IPV4], [IPV6], [IPV4, IPV6], [IPV6, IPV4]]
            && (offered != [] ==> forall f | f in spec.families :: f in offered)
            && (svc.policyRequest.None? ==> (spec.policy == Some(REQUIRE_DUAL_STACK) <==> |spec.families| == 2))
  {
    var parts := Split(svc.familiesRequest.value, ',');
    FamiliesMeaning(parts);
    UnsupportedMeaning(RequestedAddressFamilies(svc).value.0, offered);
    assert SINGLE_STACK[0] != REQUIRE_DUAL_STACK[0];
  }

  /* ----- Write-back ----- */

  // An allocated address: a hostname, or an IP of some family ("" if it does not parse).
  datatype Address = HostnameAddress | IPAddress(family: string)

  function Lacking(want: seq<string>, have: seq<Address>): seq<string> {
    if want == [] then []
    else
      var rest := Lacking(want[..|want| - 1], have);
      if IPAddress(want[|want| - 1]) in have then rest else rest + [want[|want| - 1]]
  }

  /** missingFamilies: a hostname stands for every family; otherwise what was requested and has no
      address, in the order it was requested. */
  method MissingFamilies(want: seq<string>, have: seq<Address>) returns (missing: seq<string>)
    ensures missing == if HostnameAddress in have then [] else Lacking(want, have)
  {
    missing := [];
    if |want| == 0 {
      return;
    }
    var got := {};
    for i := 0 to |have|
      invariant HostnameAddress !in have[..i] && forall f :: f in got <==> IPAddress(f) in have[..i]
    {
      if have[i].HostnameAddress? {
        return;
      }
      got := got + {have[i].family};
    }
    assert have[..|have|] == have;
    for i := 0 to |want|
      invariant missing == Lacking(want[..i], have)
    {
      assert want[..i + 1][..i] == want[..i];
      if want[i] !in got {
        missing := missing + [want[i]];
      }
    }
    assert want[..|want|] == want;
  }

  /** A Service is fully published exactly when every requested family has an address. */
  lemma {:induction false} LackingMeaning(want: seq<string>, have: seq<Address>, f: string)
    ensures f in Lacking(want, have) <==> f in want && IPAddress(f) !in have
  {
    if want != [] {
      var n := |want| - 1;
      LackingMeaning(want[..n], have, f);
      assert want == want[..n] + [want[n]];
    }
  }
}
