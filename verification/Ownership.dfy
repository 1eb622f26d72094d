/** Tenant clusters and the labels that mark what they own, internal/syncer/ownership.go. */
module Ownership {
  import opened Wrappers

  type Labels = map<string, string>

  // What a pass reads off the TenantCluster.
  datatype TenantCluster = TenantCluster(
    name: string, namespace: string, hostNamespace: string,
    allowedDomains: seq<string>, selector: Labels,
    lbClass: string, ingressClass: string, gatewayClass: string,
    limit: Option<int>)

  // The kinds of object made on the host.
  datatype Kind = ServiceKind | IngressKind | GatewayKind | RouteKind | ClaimKind

  // A guest object's identity.
  datatype Meta = Meta(ns: string, name: string, uid: string)

  const TENANT := "vcluster.the-it-dept.io/tenant-cluster"
  const TENANT_NAMESPACE := "vcluster.the-it-dept.io/tenant-cluster-namespace"
  const GUEST_NAMESPACE := "vcluster.the-it-dept.io/guest-namespace"
  const GUEST_NAME := "vcluster.the-it-dept.io/guest-name"
  const GUEST_UID := "vcluster.the-it-dept.io/guest-uid"

  // A missing label reads as the empty string.
  function Label(labels: Labels, key: string): string {
    if key in labels then labels[key] else ""
  }

  function Owner(labels: Labels): (string, string) {
    (Label(labels, TENANT), Label(labels, TENANT_NAMESPACE))
  }

  predicate OwnedBy(labels: Labels, tc: TenantCluster) {
    Owner(labels) == (tc.name, tc.namespace)
  }

  function OwnershipLabels(tc: TenantCluster, guest: Meta): Labels {
    map[TENANT := tc.name, TENANT_NAMESPACE := tc.namespace,
        GUEST_NAMESPACE := guest.ns, GUEST_NAME := guest.name, GUEST_UID := guest.uid]
  }

  // mergeLabels: what is wanted wins, what else is there stays.
  function MergeLabels(have: Labels, want: Labels): Labels {
    have + want
  }

  /** An owner's update stays the owner's and says whose object it carries, and the next one changes no
      label. */
  lemma MergeKeepsOwner(have: Labels, tc: TenantCluster, guest: Meta)
    ensures var merged := MergeLabels(have, OwnershipLabels(tc, guest));
            && OwnedBy(merged, tc)
            && Label(merged, GUEST_NAMESPACE) == guest.ns && Label(merged, GUEST_NAME) == guest.name
            && Label(merged, GUEST_UID) == guest.uid
            && MergeLabels(merged, OwnershipLabels(tc, guest)) == merged
            && forall k | k in have && k !in OwnershipLabels(tc, guest) :: k in merged && merged[k] == have[k]
  {
    assert TENANT != GUEST_NAME && TENANT_NAMESPACE != GUEST_NAME;
    var want := OwnershipLabels(tc, guest);
    assert want[TENANT] == tc.name && want[TENANT_NAMESPACE] == tc.namespace;
  }
}
