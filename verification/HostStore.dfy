/** The host's object store, shared by the passes and teardowns of any number of TenantClusters and by
    other users: reads, writes with a resource version, label-scoped lists, deletes with a UID
    precondition, as internal/syncer/pass.go and internal/syncer/tenantcluster_controller.go use them.
    Between a read and the write it leads to, anything may happen. */
module HostStore {
  import opened Names
  import opened Ownership
  import Services
  import Ingresses
  import Routes

  datatype Body =
    | ServiceBody(service: Services.ServiceSpec) | IngressBody(ingress: Ingresses.IngressSpec)
    | GatewayBody(gateway: Routes.GatewaySpec) | RouteBody(route: Routes.RouteSpec) | OtherBody(text: string)

  datatype Object = Object(uid: nat, rev: nat, labels: Labels, body: Body)
  datatype Key = Key(ns: string, kind: Kind, name: HostName)

  // A TenantCluster, by its name and namespace.
  type Tenant = (string, string)

  // What a controller has read for a tenant: single objects, and the items of its lists, one per kind and
  // namespace. They are kept until the next list of that kind, whatever else is listed meanwhile.
  datatype View = View(got: map<Key, Object>, listed: map<Key, Object>)

  datatype Store = Store(objects: map<Key, Object>, clock: nat, views: map<Tenant, View>)

  const Empty := Store(map[], 0, map[])

  datatype Action =
    | Get(t: Tenant, k: Key)
    | Create(t: Tenant, k: Key, labels: Labels, body: Body)
    | Update(t: Tenant, k: Key, labels: Labels, body: Body)
    | List(t: Tenant, ns: string, kind: Kind)
    | Delete(t: Tenant, k: Key)
    | OtherCreate(k: Key, labels: Labels, body: Body)
    | OtherUpdate(k: Key, labels: Labels, body: Body)
    | OtherDelete(k: Key)
    // another user takes ownership labels off an object, or puts some on
    | Relabel(k: Key, labels: Labels)

  function ViewOf(s: Store, t: Tenant): View {
    if t in s.views then s.views[t] else View(map[], map[])
  }

  // When the controller issues a call and the API accepts it.
  predicate Can(s: Store, a: Action) {
    match a
    case Get(_, _) => true
    case Create(t, k, labels, _) => k !in s.objects && Owner(labels) == t
    case Update(t, k, labels, _) =>
      // mayTouch on what was read; the write carries its resource version
      && k in ViewOf(s, t).got && Owner(ViewOf(s, t).got[k].labels) == t && Owner(labels) == t
      && k in s.objects && s.objects[k].rev == ViewOf(s, t).got[k].rev
    case List(_, _, _) => true
    case Delete(t, k) =>
      // deleteOwned on a listed item; the call carries its UID
      && k in ViewOf(s, t).listed && Owner(ViewOf(s, t).listed[k].labels) == t
      && k in s.objects && s.objects[k].uid == ViewOf(s, t).listed[k].uid
    case OtherCreate(k, _, _) => k !in s.objects
    case OtherUpdate(k, labels, _) => k in s.objects && Owner(labels) == Owner(s.objects[k].labels)
    case OtherDelete(k) => k in s.objects
    case Relabel(k, _) => k in s.objects
  }

  function Created(s: Store, k: Key, labels: Labels, body: Body): Store {
    s.(objects := s.objects[k := Object(s.clock, s.clock, labels, body)], clock := s.clock + 1)
  }

  // A write that changes nothing leaves the resource version alone.
  function Written(s: Store, k: Key, labels: Labels, body: Body): Store
    requires k in s.objects
  {
    var o := s.objects[k];
    if o.labels == labels && o.body == body then s
    else s.(objects := s.objects[k := Object(o.uid, s.clock, labels, body)], clock := s.clock + 1)
  }

  function Items(s: Store, t: Tenant, ns: string, kind: Kind): map<Key, Object> {
    map k | k in s.objects && k.ns == ns && k.kind == kind && Owner(s.objects[k].labels) == t :: s.objects[k]
  }

  predicate InList(k: Key, ns: string, kind: Kind) {
    k.ns == ns && k.kind == kind
  }

  // The items of one kind are replaced, those of others stay.
  function Relisted(listed: map<Key, Object>, items: map<Key, Object>, ns: string, kind: Kind): map<Key, Object> {
    (map k | k in listed && !InList(k, ns, kind) :: listed[k]) + items
  }

  function Do(s: Store, a: Action): Store
    requires Can(s, a)
  {
    match a
    case Get(t, k) =>
      var v := ViewOf(s, t);
      s.(views := s.views[t := v.(got := if k in s.objects then v.got[k := s.objects[k]] else v.got - {k})])
    case Create(_, k, labels, body) => Created(s, k, labels, body)
    case Update(_, k, labels, body) => Written(s, k, labels, body)
    case List(t, ns, kind) =>
      var v := ViewOf(s, t);
      s.(views := s.views[t := v.(listed := Relisted(v.listed, Items(s, t, ns, kind), ns, kind))])
    case Delete(_, k) => s.(objects := s.objects - {k})
    case OtherCreate(k, labels, body) => Created(s, k, labels, body)
    case OtherUpdate(k, labels, body) => Written(s, k, labels, body)
    case OtherDelete(k) => s.(objects := s.objects - {k})
    case Relabel(k, labels) => Written(s, k, labels, s.objects[k].body)
  }

  ghost predicate Runs(sched: seq<Action>, states: seq<Store>) {
    && |states| == |sched| + 1 && states[0] == Empty
    && forall i | 0 <= i < |sched| :: Can(states[i], sched[i]) && states[i + 1] == Do(states[i], sched[i])
  }

  /* ----- What was read is what is there, as far as identity goes ----- */

  // Identities are never reused, and a resource version says what the object was.
  ghost predicate Consistent(s: Store, k: Key, o: Object) {
    && o.uid < s.clock && o.rev < s.clock
    && (k in s.objects && s.objects[k].rev == o.rev ==> s.objects[k] == o)
  }

  ghost predicate Known(s: Store) {
    && (forall k | k in s.objects :: Consistent(s, k, s.objects[k]))
    && (forall t, k | k in ViewOf(s, t).got :: Consistent(s, k, ViewOf(s, t).got[k]))
    && (forall t, k | k in ViewOf(s, t).listed :: Consistent(s, k, ViewOf(s, t).listed[k]))
  }

  lemma WriteKeepsKnown(s: Store, k: Key, labels: Labels, body: Body)
    requires Known(s)
    ensures k in s.objects ==> Known(Written(s, k, labels, body))
    ensures k !in s.objects ==> Known(Created(s, k, labels, body))
  {
    if k in s.objects {
      var s' := Written(s, k, labels, body);
      forall t ensures ViewOf(s', t) == ViewOf(s, t) {}
    } else {
      var s' := Created(s, k, labels, body);
      forall t ensures ViewOf(s', t) == ViewOf(s, t) {}
    }
  }

  lemma ReadKeepsKnown(s: Store, t: Tenant, v: View)
    requires Known(s) && (forall k | k in v.got :: Consistent(s, k, v.got[k])) && (forall k | k in v.listed :: Consistent(s, k, v.listed[k]))
    ensures Known(s.(views := s.views[t := v]))
  {
    var s' := s.(views := s.views[t := v]);
    forall k, o ensures Consistent(s', k, o) == Consistent(s, k, o) {}
    forall u ensures ViewOf(s', u) == if u == t then v else ViewOf(s, u) {}
  }

  lemma StepKeepsKnown(s: Store, a: Action)
    requires Known(s) && Can(s, a)
    ensures Known(Do(s, a))
  {
    hide Created, Written;
    var s' := Do(s, a);
    match a {
      case Get(t, k) => ReadKeepsKnown(s, t, ViewOf(s', t));
      case List(t, _, _) => ReadKeepsKnown(s, t, ViewOf(s', t));
      case Delete(_, k) => forall u ensures ViewOf(s', u) == ViewOf(s, u) {}
      case OtherDelete(k) => forall u ensures ViewOf(s', u) == ViewOf(s, u) {}
      case Create(_, k, labels, body) => WriteKeepsKnown(s, k, labels, body);
      case Update(_, k, labels, body) => WriteKeepsKnown(s, k, labels, body);
      case OtherCreate(k, labels, body) => WriteKeepsKnown(s, k, labels, body);
      case OtherUpdate(k, labels, body) => WriteKeepsKnown(s, k, labels, body);
      case Relabel(k, labels) => WriteKeepsKnown(s, k, labels, s.objects[k].body);
    }
  }

  lemma {:induction false} AlwaysKnown(sched: seq<Action>, states: seq<Store>, i: nat)
    requires Runs(sched, states) && i < |states|
    ensures Known(states[i])
    decreases i
  {
    if i > 0 {
      AlwaysKnown(sched, states, i - 1);
      StepKeepsKnown(states[i - 1], sched[i - 1]);
    }
  }

  /* ----- Isolation ----- */

  // An update lands on exactly what was read and found owned.
  lemma UpdateIsOwners(s: Store, a: Action)
    requires Known(s) && Can(s, a) && a.Update?
    ensures Owner(s.objects[a.k].labels) == a.t
  {
    assert Consistent(s, a.k, ViewOf(s, a.t).got[a.k]);
  }

  predicate Lists(a: Action, t: Tenant, k: Key) {
    a.List? && a.t == t && InList(k, a.ns, a.kind)
  }

  // A tenant's last list call for the kind and namespace of k before step i, and the last time somebody
  // else relabelled k; -1 if none.
  function LastList(sched: seq<Action>, i: nat, t: Tenant, k: Key): (j: int)
    requires i <= |sched|
    ensures -1 <= j < i && (j >= 0 ==> Lists(sched[j], t, k))
    ensures forall m | j < m < i :: !Lists(sched[m], t, k)
  {
    if i == 0 then -1
    else if Lists(sched[i - 1], t, k) then i - 1
    else LastList(sched, i - 1, t, k)
  }

  function LastRelabel(sched: seq<Action>, i: nat, k: Key): (r: int)
    requires i <= |sched|
    ensures -1 <= r < i && (r >= 0 ==> sched[r].Relabel? && sched[r].k == k)
    ensures forall m | r < m < i :: !(sched[m].Relabel? && sched[m].k == k)
  {
    if i == 0 then -1
    else if sched[i - 1].Relabel? && sched[i - 1].k == k then i - 1
    else LastRelabel(sched, i - 1, k)
  }

  // The labels of k were last changed after the tenant last listed its kind, and they are not the tenant's.
  predicate TakenSinceList(sched: seq<Action>, i: nat, t: Tenant, k: Key)
    requires i <= |sched|
  {
    var r := LastRelabel(sched, i, k);
    LastList(sched, i, t, k) < r && Owner(sched[r].labels) != t
  }

  // What a tenant has listed is what was there when it last listed that kind.
  lemma {:induction false} ListedThen(sched: seq<Action>, states: seq<Store>, i: nat, t: Tenant, k: Key)
    requires Runs(sched, states) && i < |states| && k in ViewOf(states[i], t).listed
    ensures var j := LastList(sched, i, t, k);
            && j >= 0 && k in states[j].objects && ViewOf(states[i], t).listed[k] == states[j].objects[k]
            && Owner(states[j].objects[k].labels) == t
    decreases i
  {
    if i > 0 && !Lists(sched[i - 1], t, k) {
      OtherListsKeep(states[i - 1], sched[i - 1], t, k);
      ListedThen(sched, states, i - 1, t, k);
    }
  }

  lemma OtherListsKeep(s: Store, a: Action, t: Tenant, k: Key)
    requires Can(s, a) && !Lists(a, t, k) && k in ViewOf(Do(s, a), t).listed
    ensures k in ViewOf(s, t).listed && ViewOf(Do(s, a), t).listed[k] == ViewOf(s, t).listed[k]
  {
    if (a.Get? || a.List?) && a.t == t {
    } else {
      assert ViewOf(Do(s, a), t) == ViewOf(s, t);
    }
  }

  lemma {:induction false} ClockGrows(sched: seq<Action>, states: seq<Store>, j: nat, m: nat)
    requires Runs(sched, states) && j <= m < |states|
    ensures states[j].clock <= states[m].clock
    decreases m
  {
    if j < m {
      ClockGrows(sched, states, j, m - 1);
    }
  }

  // Who owns k after a step, if it is the same object as before.
  function OwnerAfter(a: Action, k: Key, owner: Tenant): Tenant {
    if a.Relabel? && a.k == k then Owner(a.labels) else owner
  }

  lemma OwnerStep(s: Store, a: Action, k: Key, uid: nat)
    requires Known(s) && Can(s, a) && uid < s.clock
    requires k in Do(s, a).objects && Do(s, a).objects[k].uid == uid
    ensures k in s.objects && s.objects[k].uid == uid
    ensures Owner(Do(s, a).objects[k].labels) == OwnerAfter(a, k, Owner(s.objects[k].labels))
  {
    if a.Update? { UpdateIsOwners(s, a); }
  }

  // An object that is still the listed one has only other users' labels on top of the tenant's.
  lemma {:induction false} OwnerSince(sched: seq<Action>, states: seq<Store>, j: nat, m: nat, k: Key)
    requires Runs(sched, states) && j < m < |states| && sched[j].List?
    requires k in states[j].objects && k in states[m].objects && states[m].objects[k].uid == states[j].objects[k].uid
    ensures var r := LastRelabel(sched, m, k);
            Owner(states[m].objects[k].labels) == if j < r then Owner(sched[r].labels) else Owner(states[j].objects[k].labels)
    decreases m
  {
    if j + 1 < m {
      AlwaysKnown(sched, states, j);
      AlwaysKnown(sched, states, m - 1);
      ClockGrows(sched, states, j, m - 1);
      OwnerStep(states[m - 1], sched[m - 1], k, states[j].objects[k].uid);
      OwnerSince(sched, states, j, m - 1, k);
    }
  }

  /** deleteOwned, exactly: in every interleaving, an object is deleted by a tenant whose labels it does
      not carry if and only if other users' last change of its labels came after that tenant's last list
      call for its kind, and was to another owner's. */
  lemma DeletesForeignExactly(sched: seq<Action>, states: seq<Store>, i: nat)
    requires Runs(sched, states) && i < |sched| && sched[i].Delete?
    ensures Owner(states[i].objects[sched[i].k].labels) != sched[i].t <==> TakenSinceList(sched, i, sched[i].t, sched[i].k)
  {
    var t, k := sched[i].t, sched[i].k;
    ListedThen(sched, states, i, t, k);
    OwnerSince(sched, states, LastList(sched, i, t, k), i, k);
  }

  // The tenant a step acts for.
  predicate ActsFor(a: Action, t: Tenant) {
    (a.Get? || a.Create? || a.Update? || a.List? || a.Delete?) && a.t == t
  }

  /** Tenant isolation: in every interleaving, an object that does not carry a tenant's labels is not
      changed by that tenant's passes and teardowns; unless they delete it when another user has changed
      its labels since they listed its kind. */
  lemma Isolation(sched: seq<Action>, states: seq<Store>, i: nat, t: Tenant, k: Key)
    requires Runs(sched, states) && i < |sched| && ActsFor(sched[i], t)
    requires k in states[i].objects && Owner(states[i].objects[k].labels) != t
    ensures (k in states[i + 1].objects && states[i + 1].objects[k] == states[i].objects[k])
            || (sched[i] == Delete(t, k) && TakenSinceList(sched, i, t, k))
  {
    AlwaysKnown(sched, states, i);
    if sched[i].Update? {
      UpdateIsOwners(states[i], sched[i]);
    } else if sched[i].Delete? {
      DeletesForeignExactly(sched, states, i);
    }
  }

  /** An update is always safe: it lands only on the version that was read, labels included. */
  lemma UpdatesAreOwners(sched: seq<Action>, states: seq<Store>, i: nat)
    requires Runs(sched, states) && i < |sched| && sched[i].Update?
    ensures Owner(states[i].objects[sched[i].k].labels) == sched[i].t
  {
    AlwaysKnown(sched, states, i);
    UpdateIsOwners(states[i], sched[i]);
  }

  lemma Extend(sched: seq<Action>, states: seq<Store>, a: Action) returns (sched': seq<Action>, states': seq<Store>, s: Store)
    requires Runs(sched, states) && Can(states[|sched|], a)
    ensures sched' == sched + [a] && s == Do(states[|sched|], a) && states' == states + [s]
    ensures Runs(sched', states') && |states'| == |sched'| + 1 && states'[|sched'|] == s && states'[|sched'| - 1] == states[|sched|]
  {
    s := Do(states[|sched|], a);
    sched', states' := sched + [a], states + [s];
  }

  // An object is made and listed, and then another user takes its labels away.
  lemma MadeAndTaken(t: Tenant, k: Key, labels: Labels, body: Body) returns (sched: seq<Action>, states: seq<Store>)
    requires Owner(labels) == t
    ensures Runs(sched, states) && |states| == |sched| + 1
    ensures sched == [Create(t, k, labels, body), List(t, k.ns, k.kind), Relabel(k, map[])]
    ensures var s := states[3];
            && k in s.objects && Owner(s.objects[k].labels) == ("", "")
            && k in ViewOf(s, t).listed && Owner(ViewOf(s, t).listed[k].labels) == t
            && ViewOf(s, t).listed[k].uid == s.objects[k].uid
  {
    var s: Store;
    sched, states, s := Extend([], [Empty], Create(t, k, labels, body));
    sched, states, s := Extend(sched, states, List(t, k.ns, k.kind));
    assert k in ViewOf(s, t).listed;
    sched, states, s := Extend(sched, states, Relabel(k, map[]));
  }

  /** The UID precondition does not cover labels: when they are taken off between the list and the
      delete, an object that is no longer the tenant's is deleted. */
  lemma RelabelRace(t: Tenant, k: Key, labels: Labels, body: Body) returns (sched: seq<Action>, states: seq<Store>)
    requires Owner(labels) == t && t != ("", "")
    ensures Runs(sched, states) && |states| == 5
    ensures sched == [Create(t, k, labels, body), List(t, k.ns, k.kind), Relabel(k, map[]), Delete(t, k)]
    ensures k in states[3].objects && Owner(states[3].objects[k].labels) == ("", "") && k !in states[4].objects
  {
    hide Runs;
    var s: Store;
    sched, states := MadeAndTaken(t, k, labels, body);
    sched, states, s := Extend(sched, states, Delete(t, k));
  }

  /** The gap is widest for host PVCs, which a pass lists first and deletes last: other kinds are listed in
      between, and the old item still counts. */
  lemma ClaimRelabelRace(t: Tenant, k: Key, kind: Kind, labels: Labels, body: Body) returns (sched: seq<Action>, states: seq<Store>)
    requires Owner(labels) == t && t != ("", "") && kind != k.kind
    ensures Runs(sched, states) && |states| == 6
    ensures sched == [Create(t, k, labels, body), List(t, k.ns, k.kind), Relabel(k, map[]), List(t, k.ns, kind), Delete(t, k)]
    ensures k in states[4].objects && Owner(states[4].objects[k].labels) == ("", "") && k !in states[5].objects
  {
    hide Runs;
    sched, states := MadeAndTaken(t, k, labels, body);
    var s: Store;
    sched, states, s := Extend(sched, states, List(t, k.ns, kind));
    assert k in ViewOf(s, t).listed && ViewOf(s, t).listed[k] == ViewOf(states[3], t).listed[k];
    sched, states, s := Extend(sched, states, Delete(t, k));
  }
}
