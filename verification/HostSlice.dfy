/** The host calls of a pass as they are written, internal/syncer/pass.go and storage_pass.go, with every
    call able to fail and everybody else moving before every call; unless the pass is quiet. Host PVCs are
    listed first and deleted last, applyAll and pruneAll come in between. Each method is proved to issue
    only calls that module HostStore allows, so isolation holds of every such pass; and a quiet pass is
    proved to refine "the owned objects are the desired ones". */
module HostSlice {
  import opened Wrappers
  import opened Names
  import opened Ownership
  import opened HostStore
  import opened HostPass

  datatype Read = Found(item: Object) | NotFound | Failed

  class HostSide {
    const tc: TenantCluster
    const gatewayAPI: bool
    // Nothing fails and nobody interferes.
    const quiet: bool

    var s: Store
    // services, ingresses, gateways and routes
    var desired: map<Slot, Wanted>
    var problems: nat
    var pruneFailed: bool
    ghost var sched: seq<Action>
    ghost var states: seq<Store>

    function Me(): Tenant {
      (tc.name, tc.namespace)
    }

    function KeyFor(slot: Slot): Key {
      Key(tc.hostNamespace, slot.0, slot.1)
    }

    // The items of the last list of a kind.
    function ListedOf(kind: Kind): map<Key, Object>
      reads this`s
    {
      var listed := ViewOf(s, Me()).listed;
      map k | k in listed && InList(k, tc.hostNamespace, kind) :: listed[k]
    }

    // All that has happened so far is a run of the shared store.
    ghost predicate Valid()
      reads this`s, this`sched, this`states
    {
      Runs(sched, states) && states[|sched|] == s
    }

    ghost method Record(a: Action)
      requires Valid() && Can(s, a)
      modifies this`sched, this`states
      ensures Runs(sched, states) && states[|sched|] == Do(s, a)
    {
      states := states + [Do(s, a)];
      sched := sched + [a];
    }

    // Any number of steps of other tenants and other users.
    method Interfere()
      requires Valid()
      modifies this`s, this`sched, this`states
      ensures Valid() && ViewOf(s, Me()) == old(ViewOf(s, Me()))
      ensures quiet ==> s == old(s)
    {
      hide Runs, Do, Can;
      var n: nat := *;
      if quiet {
        n := 0;
      }
      while n > 0
        invariant Valid() && ViewOf(s, Me()) == old(ViewOf(s, Me())) && (quiet ==> s == old(s) && n == 0)
      {
        var a: Action := *;
        if !ActsFor(a, Me()) && Can(s, a) {
          OthersKeepView(s, a, Me());
          Record(a);
          s := Do(s, a);
        }
        n := n - 1;
      }
    }

    lemma OthersKeepView(s: Store, a: Action, t: Tenant)
      requires Can(s, a) && !ActsFor(a, t)
      ensures ViewOf(Do(s, a), t) == ViewOf(s, t)
    {
    }

    // An uncached read.
    method Read(k: Key) returns (r: Read)
      requires Valid()
      modifies this`s, this`sched, this`states
      ensures Valid() && (r.Found? ==> k in ViewOf(s, Me()).got && r.item == ViewOf(s, Me()).got[k])
      ensures ViewOf(s, Me()).listed == old(ViewOf(s, Me()).listed)
      ensures quiet ==> s.objects == old(s.objects) && r == (if k in s.objects then Found(s.objects[k]) else NotFound)
    {
      hide Runs;
      Interfere();
      var ok: bool := *;
      if !quiet && !ok {
        return Failed;
      }
      Record(Get(Me(), k));
      s := Do(s, Get(Me(), k));
      r := if k in s.objects then Found(s.objects[k]) else NotFound;
    }

    // What the API server stores for a spec.
    method Assign(sent: Body) returns (stored: Body)
      ensures Assigned(sent, stored)
    {
      stored := *;
      if !Assigned(sent, stored) {
        stored := sent;
      }
    }

    method CreateObject(k: Key, w: Wanted) returns (ok: bool)
      requires Valid() && Owner(w.labels) == Me()
      modifies this`s, this`sched, this`states
      ensures Valid() && ViewOf(s, Me()) == old(ViewOf(s, Me()))
      ensures quiet && k !in old(s.objects) ==>
                && ok && k in s.objects && s.objects == old(s.objects)[k := s.objects[k]]
                && s.objects[k].labels == w.labels && Assigned(w.body, s.objects[k].body)
    {
      hide Runs;
      Interfere();
      var stored := Assign(w.body);
      ok := *;
      var a := Create(Me(), k, w.labels, stored);
      if (quiet || ok) && k !in s.objects {
        Record(a);
        s, ok := Do(s, a), true;
      } else {
        ok := false;
      }
    }

    // A write to an object that was read and may be touched.
    method UpdateObject(k: Key, labels: Labels, body: Body) returns (ok: bool)
      requires Valid() && Owner(labels) == Me()
      requires k in ViewOf(s, Me()).got && Owner(ViewOf(s, Me()).got[k].labels) == Me()
      modifies this`s, this`sched, this`states
      ensures Valid() && ViewOf(s, Me()) == old(ViewOf(s, Me()))
      ensures quiet && k in old(s.objects) && old(s.objects[k] == ViewOf(s, Me()).got[k]) ==>
                && ok && k in s.objects && s.objects == old(s.objects)[k := s.objects[k]]
                && s.objects[k].uid == old(s.objects)[k].uid
                && s.objects[k].labels == labels && Assigned(body, s.objects[k].body)
                && (old(s.objects)[k].labels == labels && old(s.objects)[k].body == body ==> s.objects[k] == old(s.objects)[k])
    {
      hide Runs;
      Interfere();
      var stored := body;
      if k in s.objects && !(s.objects[k].labels == labels && s.objects[k].body == body) {
        stored := Assign(body);
      }
      ok := *;
      var a := Update(Me(), k, labels, stored);
      if (quiet || ok) && k in s.objects && s.objects[k].rev == ViewOf(s, Me()).got[k].rev {
        Record(a);
        s, ok := Do(s, a), true;
      } else {
        ok := false;
      }
    }

    /** applyService and its three likes: create, or update what is ours, or leave alone what is not. */
    method Apply(slot: Slot)
      requires Valid() && slot in desired && Owner(desired[slot].labels) == Me()
      modifies this`s, this`desired, this`problems, this`sched, this`states
      ensures Valid() && problems >= old(problems) && ViewOf(s, Me()).listed == old(ViewOf(s, Me()).listed)
      ensures desired == old(desired) || desired == old(desired) - {slot}
      ensures quiet ==>
                && Applied(old(s.objects), s.objects, KeyFor(slot), old(desired)[slot], Me())
                && (forall k | k != KeyFor(slot) :: Same(old(s.objects), s.objects, k))
                && desired == if Foreign(old(s.objects), KeyFor(slot), Me()) then old(desired) - {slot} else old(desired)
    {
      hide Runs;
      var k, w := KeyFor(slot), desired[slot];
      var r := Read(k);
      match r {
        case NotFound =>
          var ok := CreateObject(k, w);
          if !ok {
            problems := problems + 1;
          }
        case Failed =>
          problems := problems + 1;
        case Found(have) =>
          if !OwnedBy(have.labels, tc) {
            problems := problems + 1;
            desired := desired - {slot};
            return;
          }
          MergedOwner(have.labels, w.labels);
          var ok := UpdateObject(k, MergeLabels(have.labels, w.labels), Merged(have.body, w.body));
          if !ok {
            problems := problems + 1;
          }
      }
    }

    lemma MergedOwner(have: Labels, want: Labels)
      requires Owner(have) == Me() && Owner(want) == Me()
      ensures Owner(MergeLabels(have, want)) == Me()
    {
    }

    /** applyAll: every desired object, in whatever order. */
    method ApplyAll()
      requires Valid() && WantedBy(desired, tc, gatewayAPI)
      modifies this`s, this`desired, this`problems, this`sched, this`states
      ensures Valid() && problems >= old(problems) && ViewOf(s, Me()).listed == old(ViewOf(s, Me()).listed)
      ensures forall slot | slot in desired :: slot in old(desired) && desired[slot] == old(desired)[slot]
      ensures quiet ==>
                && (forall slot | slot in old(desired) :: Applied(old(s.objects), s.objects, KeyFor(slot), old(desired)[slot], Me()))
                && (forall k: Key | k.ns != tc.hostNamespace || (k.kind, k.name) !in old(desired) :: Same(old(s.objects), s.objects, k))
                && (forall slot | slot in old(desired) :: slot in desired <==> !Foreign(old(s.objects), KeyFor(slot), Me()))
    {
      hide Runs, Applied;
      ghost var want, before := desired, s.objects;
      var todo := desired.Keys;
      while todo != {}
        invariant Valid() && problems >= old(problems) && todo <= desired.Keys
        invariant ViewOf(s, Me()).listed == old(ViewOf(s, Me()).listed)
        invariant forall slot | slot in desired :: slot in want && desired[slot] == want[slot]
        invariant quiet ==> forall slot | slot in want && slot !in todo :: Applied(before, s.objects, KeyFor(slot), want[slot], Me())
        invariant quiet ==> forall k: Key | k.ns != tc.hostNamespace || (k.kind, k.name) !in want || (k.kind, k.name) in todo ::
                    Same(before, s.objects, k)
        invariant quiet ==> forall slot | slot in want && slot !in todo :: slot in desired <==> !Foreign(before, KeyFor(slot), Me())
      {
        var slot :| slot in todo;
        todo := todo - {slot};
        ghost var now := s.objects;
        assert quiet ==> Same(before, now, KeyFor(slot));
        Apply(slot);
        if quiet {
          AppliedSame(before, now, s.objects, KeyFor(slot), want[slot]);
          forall k: Key | k != KeyFor(slot) && Same(before, now, k) ensures Same(before, s.objects, k) {
            assert Same(now, s.objects, k);
          }
          forall other | other in want && other !in todo && other != slot
            ensures Applied(before, s.objects, KeyFor(other), want[other], Me())
          {
            AppliedLater(before, now, s.objects, KeyFor(other), want[other]);
          }
        }
      }
    }

    lemma AppliedSame(before: map<Key, Object>, now: map<Key, Object>, after: map<Key, Object>, k: Key, w: Wanted)
      requires Same(before, now, k) && Applied(now, after, k, w, Me())
      ensures Applied(before, after, k, w, Me())
    {
    }

    lemma AppliedLater(before: map<Key, Object>, now: map<Key, Object>, after: map<Key, Object>, k: Key, w: Wanted)
      requires Applied(before, now, k, w, Me()) && Same(now, after, k)
      ensures Applied(before, after, k, w, Me())
    {
    }

    // One list call.
    method ListOwned(kind: Kind) returns (items: Option<map<Key, Object>>)
      requires Valid()
      modifies this`s, this`sched, this`states
      ensures Valid() && (items.Some? ==> items.value == ListedOf(kind))
      ensures forall other | other != kind :: ListedOf(other) == old(ListedOf(other))
      ensures quiet ==> s.objects == old(s.objects) && items == Some(Items(s, Me(), tc.hostNamespace, kind))
    {
      hide Runs;
      Interfere();
      var ok: bool := *;
      if !quiet && !ok {
        return None;
      }
      Record(List(Me(), tc.hostNamespace, kind));
      items := Some(Items(s, Me(), tc.hostNamespace, kind));
      ghost var was := s;
      s := Do(s, List(Me(), tc.hostNamespace, kind));
      Listing(was, kind);
    }

    lemma Listing(was: Store, kind: Kind)
      requires s == Do(was, List(Me(), tc.hostNamespace, kind))
      ensures s.objects == was.objects && ListedOf(kind) == Items(was, Me(), tc.hostNamespace, kind) == Items(s, Me(), tc.hostNamespace, kind)
      ensures forall other | other != kind ::
                ListedOf(other) == map k | k in ViewOf(was, Me()).listed && InList(k, tc.hostNamespace, other) :: ViewOf(was, Me()).listed[k]
    {
      hide Items, Relisted;
      var ns, listed, items := tc.hostNamespace, ViewOf(was, Me()).listed, Items(was, Me(), tc.hostNamespace, kind);
      ItemsAreListed(was, kind);
      assert ViewOf(s, Me()).listed == Relisted(listed, items, ns, kind);
      forall k
        ensures InList(k, ns, kind) ==> (k in Relisted(listed, items, ns, kind) <==> k in items)
        ensures k in items ==> Relisted(listed, items, ns, kind)[k] == items[k]
        ensures !InList(k, ns, kind) ==> (k in Relisted(listed, items, ns, kind) <==> k in listed)
        ensures !InList(k, ns, kind) && k in listed ==> Relisted(listed, items, ns, kind)[k] == listed[k]
      {
        RelistedAt(listed, items, ns, kind, k);
      }
    }

    lemma ItemsAreListed(was: Store, kind: Kind)
      ensures forall k | k in Items(was, Me(), tc.hostNamespace, kind) :: InList(k, tc.hostNamespace, kind)
      ensures Items(Do(was, List(Me(), tc.hostNamespace, kind)), Me(), tc.hostNamespace, kind) == Items(was, Me(), tc.hostNamespace, kind)
    {
    }

    lemma RelistedAt(listed: map<Key, Object>, items: map<Key, Object>, ns: string, kind: Kind, k: Key)
      requires forall k | k in items :: InList(k, ns, kind)
      ensures var out := Relisted(listed, items, ns, kind);
              && (InList(k, ns, kind) ==> (k in out <==> k in items)) && (k in items ==> out[k] == items[k])
              && (!InList(k, ns, kind) ==> (k in out <==> k in listed) && (k in listed ==> out[k] == listed[k]))
    {
    }

    /** deleteOwned: only what carries our labels, and only the very object that was listed. */
    method DeleteOwned(k: Key)
      requires Valid() && k in ViewOf(s, Me()).listed
      modifies this`s, this`problems, this`pruneFailed, this`sched, this`states
      ensures Valid() && problems >= old(problems) && ViewOf(s, Me()) == old(ViewOf(s, Me()))
      ensures old(pruneFailed) ==> pruneFailed
      ensures quiet && k in old(s.objects) && old(s.objects[k] == ViewOf(s, Me()).listed[k] && Owner(s.objects[k].labels) == Me()) ==>
                s.objects == old(s.objects) - {k} && pruneFailed == old(pruneFailed) && problems == old(problems)
    {
      hide Runs;
      var item := ViewOf(s, Me()).listed[k];
      if !OwnedBy(item.labels, tc) {
        return;
      }
      Interfere();
      var ok: bool := *;
      if (quiet || ok) && k in s.objects && s.objects[k].uid == item.uid {
        Record(Delete(Me(), k));
        s := Do(s, Delete(Me(), k));
      } else if k in s.objects {
        // refused: a failure, or another object under the name
        problems, pruneFailed := problems + 1, true;
      }
    }

    // An object of ours that is not desired.
    predicate Prunes(objects: map<Key, Object>, k: Key)
      reads this`desired
    {
      k.ns == tc.hostNamespace && Owned(objects, k, Me()) && (k.kind, k.name) !in desired
    }

    // Such objects of these kinds are gone, and nothing else has changed.
    ghost predicate Pruned(before: map<Key, Object>, after: map<Key, Object>, kinds: set<Kind>)
      reads this`desired
    {
      forall k: Key :: if k.kind in kinds && Prunes(before, k) then k !in after else Same(before, after, k)
    }

    lemma PrunedMore(before: map<Key, Object>, now: map<Key, Object>, after: map<Key, Object>, kinds: set<Kind>, kind: Kind)
      requires Pruned(before, now, kinds) && Pruned(now, after, {kind}) && kind !in kinds
      ensures Pruned(before, after, kinds + {kind})
    {
      forall k: Key ensures if k.kind in kinds + {kind} && Prunes(before, k) then k !in after else Same(before, after, k) {
        assert if k.kind in kinds && Prunes(before, k) then k !in now else Same(before, now, k);
        assert if k.kind in {kind} && Prunes(now, k) then k !in after else Same(now, after, k);
      }
    }

    // The same while some keys are still to be looked at.
    ghost predicate PrunedBut(before: map<Key, Object>, after: map<Key, Object>, kind: Kind, todo: set<Key>)
      reads this`desired
    {
      forall k: Key :: if k.kind == kind && Prunes(before, k) && k !in todo then k !in after else Same(before, after, k)
    }

    lemma PrunedOne(before: map<Key, Object>, now: map<Key, Object>, kind: Kind, todo: set<Key>, k: Key)
      requires PrunedBut(before, now, kind, todo) && k in todo
      ensures Same(before, now, k)
      ensures k.kind == kind && Prunes(before, k) ==> PrunedBut(before, now - {k}, kind, todo - {k})
      ensures !Prunes(before, k) ==> PrunedBut(before, now, kind, todo - {k})
    {
    }

    lemma PrunedAllItems(before: map<Key, Object>, after: map<Key, Object>, kind: Kind)
      requires PrunedBut(before, after, kind, {})
      ensures Pruned(before, after, {kind})
    {
    }

    // All that is ours is among the items.
    lemma PruneBegins(before: map<Key, Object>, kind: Kind, items: set<Key>)
      requires forall k: Key | k.kind == kind && Prunes(before, k) :: k in items
      ensures PrunedBut(before, before, kind, items)
    {
    }

    /** pruneAll for one kind: what is listed as ours and not desired. */
    method PruneKind(kind: Kind)
      requires Valid()
      modifies this`s, this`problems, this`pruneFailed, this`sched, this`states
      ensures Valid() && problems >= old(problems) && (old(pruneFailed) ==> pruneFailed)
      ensures forall other | other != kind :: ListedOf(other) == old(ListedOf(other))
      ensures quiet ==> pruneFailed == old(pruneFailed) && problems == old(problems) && Pruned(old(s.objects), s.objects, {kind})
    {
      hide Runs, Pruned, PrunedBut;
      var items := ListOwned(kind);
      if items.None? {
        problems, pruneFailed := problems + 1, true;
        return;
      }
      ghost var before, view := s.objects, ViewOf(s, Me());
      var todo := items.value.Keys;
      if quiet { PruneBegins(before, kind, todo); }
      while todo != {}
        invariant Valid() && problems >= old(problems) && (old(pruneFailed) ==> pruneFailed)
        invariant todo <= items.value.Keys && ViewOf(s, Me()) == view
        invariant quiet ==> pruneFailed == old(pruneFailed) && problems == old(problems) && PrunedBut(before, s.objects, kind, todo)
      {
        var k :| k in todo;
        if quiet { PrunedOne(before, s.objects, kind, todo, k); }
        todo := todo - {k};
        if (k.kind, k.name) !in desired {
          DeleteOwned(k);
        }
      }
      if quiet { PrunedAllItems(before, s.objects, kind); }
    }

    /** pruneAll: Services and Ingresses, and with the Gateway API Gateways and HTTPRoutes. */
    method PruneAll()
      requires Valid()
      modifies this`s, this`problems, this`pruneFailed, this`sched, this`states
      ensures ListedOf(ClaimKind) == old(ListedOf(ClaimKind))
      ensures Valid() && problems >= old(problems) && (old(pruneFailed) ==> pruneFailed)
      ensures quiet ==> pruneFailed == old(pruneFailed) && problems == old(problems)
      ensures quiet ==> Pruned(old(s.objects), s.objects, set kind | Managed(kind, gatewayAPI))
    {
      hide Runs, Pruned;
      ghost var before := s.objects;
      PruneKind(ServiceKind);
      ghost var now := s.objects;
      PruneKind(IngressKind);
      if quiet { PrunedMore(before, now, s.objects, {ServiceKind}, IngressKind); }
      if gatewayAPI {
        now := s.objects;
        PruneKind(GatewayKind);
        if quiet { PrunedMore(before, now, s.objects, {ServiceKind} + {IngressKind}, GatewayKind); }
        now := s.objects;
        PruneKind(RouteKind);
        if quiet { PrunedMore(before, now, s.objects, {ServiceKind} + {IngressKind} + {GatewayKind}, RouteKind); }
      }
      ManagedKinds();
    }

    lemma ManagedKinds()
      ensures (set kind | Managed(kind, gatewayAPI))
              == if gatewayAPI then {ServiceKind} + {IngressKind} + {GatewayKind} + {RouteKind} else {ServiceKind} + {IngressKind}
    {
    }

    // What applying did to one key.
    ghost predicate AppliedAt(before: map<Key, Object>, applied: map<Key, Object>, want: map<Slot, Wanted>, k: Key)
      reads this`desired
    {
      if k.ns == tc.hostNamespace && (k.kind, k.name) in want then
        && Applied(before, applied, k, want[(k.kind, k.name)], Me())
        && ((k.kind, k.name) in desired <==> !Foreign(before, k, Me()))
      else Same(before, applied, k)
    }

    // One key of Refined.
    ghost predicate RefinedAt(before: map<Key, Object>, after: map<Key, Object>, want: map<Slot, Wanted>, k: Key) {
      && (k in before && Owner(before[k].labels) != Me() ==> Same(before, after, k))
      && (k.ns != tc.hostNamespace || !Managed(k.kind, gatewayAPI) ==> Same(before, after, k))
      && (k in after ==> k in before || (k.kind, k.name) in want)
      && (k.ns == tc.hostNamespace && Managed(k.kind, gatewayAPI) ==>
            (Owned(after, k, Me()) <==> (k.kind, k.name) in want && !Foreign(before, k, Me())))
      && (k.ns == tc.hostNamespace && (k.kind, k.name) in want ==> Applied(before, after, k, want[(k.kind, k.name)], Me()))
    }

    // Applying and then pruning, at one key.
    lemma RefinedThere(before: map<Key, Object>, applied: map<Key, Object>, after: map<Key, Object>, want: map<Slot, Wanted>, k: Key)
      requires WantedBy(want, tc, gatewayAPI) && AppliedAt(before, applied, want, k)
      requires forall slot | slot in desired :: slot in want
      requires if Managed(k.kind, gatewayAPI) && Prunes(applied, k) then k !in after else Same(applied, after, k)
      ensures RefinedAt(before, after, want, k)
    {
      if k.ns == tc.hostNamespace && (k.kind, k.name) in want {
        var w := want[(k.kind, k.name)];
        WantedOwner(before, applied, (k.kind, k.name), w);
        AppliedLater(before, applied, after, k, w);
      }
    }

    lemma RefinedEverywhere(before: map<Key, Object>, after: map<Key, Object>, want: map<Slot, Wanted>)
      requires forall k :: RefinedAt(before, after, want, k)
      ensures Refined(before, after, want, tc, gatewayAPI)
    {
      forall slot: Slot | slot in want ensures Applied(before, after, Key(tc.hostNamespace, slot.0, slot.1), want[slot], (tc.name, tc.namespace)) {
        assert RefinedAt(before, after, want, KeyFor(slot));
      }
      forall k: Key | k in before && Owner(before[k].labels) != Me() ensures Same(before, after, k) { assert RefinedAt(before, after, want, k); }
      forall k: Key | k.ns != tc.hostNamespace || !Managed(k.kind, gatewayAPI) ensures Same(before, after, k) {
        assert RefinedAt(before, after, want, k);
      }
      forall k: Key | k in after ensures k in before || (k.kind, k.name) in want { assert RefinedAt(before, after, want, k); }
      forall k: Key | k.ns == tc.hostNamespace && Managed(k.kind, gatewayAPI)
        ensures Owned(after, k, Me()) <==> (k.kind, k.name) in want && !Foreign(before, k, Me())
      {
        assert RefinedAt(before, after, want, k);
      }
    }

    lemma WantedOwner(before: map<Key, Object>, applied: map<Key, Object>, slot: Slot, w: Wanted)
      requires Applied(before, applied, KeyFor(slot), w, Me()) && Owner(w.labels) == Me()
      ensures KeyFor(slot) in applied && (Owner(applied[KeyFor(slot)].labels) == Me() <==> !Foreign(before, KeyFor(slot), Me()))
    {
      if KeyFor(slot) in before && Owner(before[KeyFor(slot)].labels) == Me() {
        MergedOwner(before[KeyFor(slot)].labels, w.labels);
      }
    }

    /* ----- Host PVCs ----- */

    predicate IsClaim(k: Key) {
      InList(k, tc.hostNamespace, ClaimKind)
    }

    function NoClaims(objects: map<Key, Object>): map<Key, Object> {
      map k | k in objects && !IsClaim(k) :: objects[k]
    }

    /** gatherStorage, its list of host PVCs: without it there is no storage in this pass, and no release. */
    method ListClaims() returns (ok: bool)
      requires Valid()
      modifies this`s, this`problems, this`pruneFailed, this`sched, this`states
      ensures Valid() && problems >= old(problems) && (old(pruneFailed) ==> pruneFailed)
      ensures !ok ==> pruneFailed
      ensures quiet ==> ok && pruneFailed == old(pruneFailed) && s.objects == old(s.objects)
      ensures quiet ==> ListedOf(ClaimKind) == Items(s, Me(), tc.hostNamespace, ClaimKind)
    {
      hide Runs;
      var items := ListOwned(ClaimKind);
      ok := items.Some?;
      if !ok {
        problems, pruneFailed := problems + 1, true;
      }
    }

    /** provisionPVC, its host half: an uncached look before creating; what is there is left alone, and a
        name that is somebody else's is reported. */
    method MakeClaim(name: HostName, w: Wanted)
      requires Valid() && Owner(w.labels) == Me()
      modifies this`s, this`problems, this`pruneFailed, this`sched, this`states
      ensures Valid() && problems >= old(problems) && (old(pruneFailed) ==> pruneFailed)
      ensures ViewOf(s, Me()).listed == old(ViewOf(s, Me()).listed)
      ensures quiet ==> pruneFailed == old(pruneFailed) && MadeAt(old(s.objects), s.objects, KeyFor((ClaimKind, name)), w)
      ensures quiet ==> forall k | k != KeyFor((ClaimKind, name)) :: Same(old(s.objects), s.objects, k)
    {
      hide Runs;
      var k := KeyFor((ClaimKind, name));
      var r := Read(k);
      match r {
        case NotFound =>
          var ok := CreateObject(k, w);
          if !ok {
            problems, pruneFailed := problems + 1, true;
          }
        case Failed =>
          problems, pruneFailed := problems + 1, true;
        case Found(have) =>
          if !OwnedBy(have.labels, tc) {
            problems := problems + 1;
          }
      }
    }

    // A claim that was missing is made, and one that is there stays as it is.
    predicate MadeAt(before: map<Key, Object>, after: map<Key, Object>, k: Key, w: Wanted) {
      if k in before then Same(before, after, k)
      else k in after && after[k].labels == w.labels && Assigned(w.body, after[k].body)
    }

    // What creating the wanted claims does to one key.
    predicate Made(before: map<Key, Object>, after: map<Key, Object>, make: map<HostName, Wanted>, k: Key) {
      if IsClaim(k) && k.name in make then MadeAt(before, after, k, make[k.name]) else Same(before, after, k)
    }

    // The host PVCs that the storage slice wants, in whatever order.
    method MakeClaims(make: map<HostName, Wanted>)
      requires Valid() && forall name | name in make :: Owner(make[name].labels) == Me()
      modifies this`s, this`problems, this`pruneFailed, this`sched, this`states
      ensures Valid() && problems >= old(problems) && (old(pruneFailed) ==> pruneFailed)
      ensures ViewOf(s, Me()).listed == old(ViewOf(s, Me()).listed)
      ensures quiet ==> pruneFailed == old(pruneFailed) && forall k :: Made(old(s.objects), s.objects, make, k)
    {
      hide Runs, MadeAt;
      ghost var before := s.objects;
      var todo := make.Keys;
      while todo != {}
        invariant Valid() && problems >= old(problems) && (old(pruneFailed) ==> pruneFailed) && todo <= make.Keys
        invariant ViewOf(s, Me()).listed == old(ViewOf(s, Me()).listed)
        invariant quiet ==> pruneFailed == old(pruneFailed)
        invariant quiet ==> forall k: Key ::
                    if IsClaim(k) && k.name in make && k.name !in todo then MadeAt(before, s.objects, k, make[k.name])
                    else Same(before, s.objects, k)
      {
        var name :| name in todo;
        todo := todo - {name};
        ghost var now := s.objects;
        assert quiet ==> Same(before, now, KeyFor((ClaimKind, name)));
        MakeClaim(name, make[name]);
        if quiet { MadeMore(before, now, s.objects, KeyFor((ClaimKind, name)), make[name]); }
      }
    }

    lemma MadeMore(before: map<Key, Object>, now: map<Key, Object>, after: map<Key, Object>, k: Key, w: Wanted)
      requires Same(before, now, k) && MadeAt(now, after, k, w) && forall j | j != k :: Same(now, after, j)
      ensures MadeAt(before, after, k, w)
      ensures forall j | j != k && Same(before, now, j) :: Same(before, after, j)
      ensures forall j, u | j != k && MadeAt(before, now, j, u) :: MadeAt(before, after, j, u)
    {
      forall j | j != k && Same(before, now, j) ensures Same(before, after, j) { assert Same(now, after, j); }
      forall j, u | j != k && MadeAt(before, now, j, u) ensures MadeAt(before, after, j, u) { assert Same(now, after, j); }
    }

    // What deleting condemned claims does to one key.
    predicate Deleted(before: map<Key, Object>, after: map<Key, Object>, items: set<Key>, doomed: set<HostName>, k: Key) {
      if k in items && k.name in doomed then k !in after else Same(before, after, k)
    }

    /** The host PVC deletes of pruneStorage, for whatever the storage slice has condemned: of the items
        listed at the start of the pass, however old they are by now. */
    method DeleteClaims(doomed: set<HostName>)
      requires Valid()
      modifies this`s, this`problems, this`pruneFailed, this`sched, this`states
      ensures Valid() && problems >= old(problems) && (old(pruneFailed) ==> pruneFailed)
      ensures quiet && old(StillListed(doomed)) ==>
                pruneFailed == old(pruneFailed) && forall k :: Deleted(old(s.objects), s.objects, old(ListedOf(ClaimKind).Keys), doomed, k)
    {
      hide Runs;
      ghost var before, view, current := s.objects, ViewOf(s, Me()), StillListed(doomed);
      var items := ListedOf(ClaimKind);
      var todo := set k | k in items && k.name in doomed;
      while todo != {}
        invariant Valid() && problems >= old(problems) && (old(pruneFailed) ==> pruneFailed)
        invariant todo <= items.Keys && ViewOf(s, Me()) == view && forall k | k in todo :: k.name in doomed
        invariant quiet && current ==> pruneFailed == old(pruneFailed)
        invariant quiet && current ==> forall k: Key ::
                    if k in items && k.name in doomed && k !in todo then k !in s.objects else Same(before, s.objects, k)
      {
        var k :| k in todo;
        todo := todo - {k};
        assert quiet && current ==> Same(before, s.objects, k);
        DeleteOwned(k);
      }
    }

    // The listed items of these names are still there, as they were listed, and ours.
    ghost predicate StillListed(doomed: set<HostName>)
      reads this`s
    {
      forall k | k in ListedOf(ClaimKind) && k.name in doomed ::
        k in s.objects && s.objects[k] == ListedOf(ClaimKind)[k] && Owner(s.objects[k].labels) == Me()
    }

    // What a quiet pass does to host PVCs: those listed and condemned are gone, those wanted and missing
    // are made, all others stay.
    predicate ClaimsDone(before: map<Key, Object>, after: map<Key, Object>, make: map<HostName, Wanted>, doomed: set<HostName>, k: Key) {
      if k.name in doomed && Owned(before, k, Me()) then k !in after
      else if k.name in make then MadeAt(before, after, k, make[k.name])
      else Same(before, after, k)
    }

    // The parts of a pass at one key; `items` are the host PVCs listed at the start.
    lemma PassAt(before: map<Key, Object>, applied: map<Key, Object>, made: map<Key, Object>, pruned: map<Key, Object>, after: map<Key, Object>,
                 want: map<Slot, Wanted>, make: map<HostName, Wanted>, items: set<Key>, doomed: set<HostName>, k: Key)
      requires WantedBy(want, tc, gatewayAPI) && AppliedAt(before, applied, want, k) && forall slot | slot in desired :: slot in want
      requires Made(applied, made, make, k)
      requires if Managed(k.kind, gatewayAPI) && Prunes(made, k) then k !in pruned else Same(made, pruned, k)
      requires Deleted(pruned, after, items, doomed, k)
      requires k in items <==> IsClaim(k) && Owned(before, k, Me())
      ensures RefinedAt(NoClaims(before), NoClaims(after), want, k)
      ensures IsClaim(k) ==> ClaimsDone(before, after, make, doomed, k)
    {
      if IsClaim(k) {
        assert (k.kind, k.name) !in want;
      } else {
        RefinedThere(before, applied, pruned, want, k);
      }
    }

    // Condemned claims are as they were listed when it comes to deleting them.
    lemma ClaimsStay(before: map<Key, Object>, applied: map<Key, Object>, made: map<Key, Object>, pruned: map<Key, Object>,
                     want: map<Slot, Wanted>, make: map<HostName, Wanted>, k: Key)
      requires WantedBy(want, tc, gatewayAPI) && AppliedAt(before, applied, want, k) && Made(applied, made, make, k)
      requires if Managed(k.kind, gatewayAPI) && Prunes(made, k) then k !in pruned else Same(made, pruned, k)
      requires IsClaim(k) && k in before
      ensures k in pruned && pruned[k] == before[k]
    {
      assert (k.kind, k.name) !in want;
    }

    /** The host half of a pass, whatever the storage slice wants made and condemns. Quiet, it refines the
        desired state; where the host was already as desired it changes nothing but host PVCs, and of those
        exactly what it was told to. */
    method Run(make: map<HostName, Wanted>, doomed: set<HostName>)
      requires Valid() && WantedBy(desired, tc, gatewayAPI)
      requires forall name | name in make :: Owner(make[name].labels) == Me()
      modifies this
      ensures Valid()
      ensures quiet ==> Refined(NoClaims(old(s.objects)), NoClaims(s.objects), old(desired), tc, gatewayAPI) && pruneFailed == old(pruneFailed)
      ensures quiet && Typed(NoClaims(old(s.objects)), old(desired)) ==> Settled(NoClaims(s.objects), old(desired), tc, gatewayAPI)
      ensures quiet && Settled(NoClaims(old(s.objects)), old(desired), tc, gatewayAPI) ==> NoClaims(s.objects) == NoClaims(old(s.objects))
      ensures quiet ==> forall k: Key | IsClaim(k) :: ClaimsDone(old(s.objects), s.objects, make, doomed, k)
    {
      hide Runs, Pruned, Refined, Settled, Typed, Applied, MadeAt, RefinedAt, ClaimsDone, Made, Deleted;
      ghost var want, before := desired, s.objects;
      var ok := ListClaims();
      ghost var items := ListedOf(ClaimKind);
      ghost var applied := s.objects;
      var ready: bool := *;
      if quiet || ready {
        ApplyAll();
        applied := s.objects;
        if ok { MakeClaims(make); }
      } else {
        // The host namespace could not be ensured.
        problems := problems + 1;
      }
      ghost var made := s.objects;
      PruneAll();
      ghost var pruned := s.objects;
      if quiet {
        forall k: Key ensures AppliedAt(before, applied, want, k) {
          assert k.ns == tc.hostNamespace ==> KeyFor((k.kind, k.name)) == k;
        }
        forall k: Key ensures if Managed(k.kind, gatewayAPI) && Prunes(made, k) then k !in pruned else Same(made, pruned, k) {
          PrunedAt(made, pruned, k);
        }
        forall k | k in items ensures k in pruned && pruned[k] == before[k] {
          ClaimsStay(before, applied, made, pruned, want, make, k);
        }
      }
      if ok { DeleteClaims(doomed); }
      if quiet {
        forall k: Key ensures RefinedAt(NoClaims(before), NoClaims(s.objects), want, k)
                 ensures IsClaim(k) ==> ClaimsDone(before, s.objects, make, doomed, k)
        {
          PassAt(before, applied, made, pruned, s.objects, want, make, items.Keys, doomed, k);
        }
        RefinedEverywhere(NoClaims(before), NoClaims(s.objects), want);
        if Typed(NoClaims(before), want) { RefinedSettles(NoClaims(before), NoClaims(s.objects), want, tc, gatewayAPI); }
        if Settled(NoClaims(before), want, tc, gatewayAPI) { SettledStays(NoClaims(before), NoClaims(s.objects), want, tc, gatewayAPI); }
      }
    }

    lemma PrunedAt(before: map<Key, Object>, after: map<Key, Object>, k: Key)
      requires Pruned(before, after, set kind | Managed(kind, gatewayAPI))
      ensures if Managed(k.kind, gatewayAPI) && Prunes(before, k) then k !in after else Same(before, after, k)
    {
    }
  }
}
