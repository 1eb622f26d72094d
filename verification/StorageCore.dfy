/** What the storage protocol keeps in every run, whatever finalizer writes fail and whatever classes
    come and go: an attachment at most per volume, and whatever a VM carries is backed by one that our
    finalizer holds. */
module StorageCore {
  import opened Hotplug
  import opened StorageMachine

  // A VM carries a volume while it is queued to be added, in the spec, or reported by the instance.
  predicate Wanted(m: Machine, name: VolumeName) {
    InSpec(m.spec, name) || Queued(m.requests, name)
  }

  predicate Carries(m: Machine, name: VolumeName) {
    Wanted(m, name) || Reported(m.status, name)
  }

  predicate Carried(vms: map<Node, Machine>, n: Node, v: Volume) {
    n in vms && Carries(vms[n], NameFor(v))
  }

  ghost predicate PinnedFor(vas: map<string, Attachment>, n: Node, v: Volume) {
    exists a | a in vas :: vas[a].vol == v && vas[a].node == n && vas[a].pinned
  }

  /* ----- The live state. Each clause names the stores it is about. ----- */

  ghost predicate OneVaPerVolume(vas: map<string, Attachment>) {
    forall a, b | a in vas && b in vas && vas[a].vol == vas[b].vol :: a == b
  }

  // The heart of it: whatever a VM carries is backed by a VolumeAttachment that our finalizer holds.
  ghost predicate CarriedArePinned(vms: map<Node, Machine>, vas: map<string, Attachment>) {
    forall n, v :: Carried(vms, n, v) ==> PinnedFor(vas, n, v)
  }

  ghost predicate VasHavePvs(vas: map<string, Attachment>, pvs: set<Volume>) {
    forall a | a in vas :: vas[a].vol in pvs
  }

  ghost predicate UsedCovers(w: World) {
    w.claims.Keys + w.pvs + w.hostPVCs + w.deleted <= w.used
  }

  ghost predicate DeletedStay(deleted: set<Volume>, claims: map<Volume, Claim>, hostPVCs: set<Volume>) {
    forall v | v in deleted :: v !in hostPVCs && (v in claims ==> claims[v].deleting)
  }

  ghost predicate CoreLive(w: World) {
    && OneVaPerVolume(w.vas)
    && CarriedArePinned(w.vms, w.vas)
    && VasHavePvs(w.vas, w.pvs)
    && UsedCovers(w)
    && DeletedStay(w.deleted, w.claims, w.hostPVCs)
  }

  /* ----- What the listings still say about the live state ----- */

  ghost predicate SameClaims(claims: map<Volume, Claim>, listed: map<Volume, Claim>) {
    forall v | v in listed && v in claims ::
      && listed[v].cls == claims[v].cls && listed[v].mappable == claims[v].mappable
      && (listed[v].deleting ==> claims[v].deleting)
  }

  ghost predicate LiveNotDeleted(listed: map<Volume, Claim>, deleted: set<Volume>) {
    forall v | v in listed && !listed[v].deleting :: v !in deleted
  }

  // A claim that appeared after the listing has nothing yet.
  ghost predicate NewClaimsBare(w: World, listed: map<Volume, Claim>) {
    forall v | v in w.claims && v !in listed :: v !in w.pvs && v !in w.hostPVCs && v !in w.deleted
  }

  ghost predicate VasListed(p: View) {
    forall a | a in p.vas :: p.vas[a].vol in p.pvs
  }

  ghost predicate ActivePinnedStay(vas: map<string, Attachment>, listed: map<string, Attachment>) {
    forall a | a in listed && listed[a].pinned && !listed[a].deleting ::
      a in vas && vas[a].vol == listed[a].vol && vas[a].node == listed[a].node && vas[a].pinned
  }

  // No live claim is listed for the volume, so nobody attaches it any more.
  predicate Doomed(p: View, v: Volume) {
    v !in p.claims || p.claims[v].deleting
  }

  // Such a volume has no attachment beyond the listed ones.
  ghost predicate NoLateVas(vas: map<string, Attachment>, p: View) {
    forall a | a in vas && Doomed(p, vas[a].vol) ::
      a in p.vas && p.vas[a].vol == vas[a].vol && (p.vas[a].deleting ==> vas[a].deleting)
  }

  ghost predicate OrphansGone(claims: map<Volume, Claim>, used: set<Volume>, p: View) {
    forall v | v in p.hosts && v !in p.claims :: v !in claims && v in used
  }

  ghost predicate HostsKnown(hostPVCs: set<Volume>, p: View) {
    forall v | v in hostPVCs :: v in p.hosts || v in p.made
  }

  // What the pass has made stays, and what it has deleted stays away.
  ghost predicate DoneStays(w: World, p: View) {
    && (forall v | v in p.made :: v in p.claims && !p.claims[v].deleting)
    && (forall v | v in p.gone :: v !in w.hostPVCs && Doomed(p, v))
    && (forall v | v in p.pvGone :: v !in w.pvs && Doomed(p, v))
  }

  // After the VM list, before the instance list.
  ghost predicate SnapHalf(vms: map<Node, Machine>, p: View) {
    forall n, v ::
      && (n in vms && Wanted(vms[n], NameFor(v)) ==> Shows(p, n, v))
      && (Carried(vms, n, v) ==> n in p.snap)
  }

  // A volume the pass may have added itself since the snapshot.
  ghost predicate ActiveFor(vas: map<string, Attachment>, n: Node, v: Volume) {
    exists a | a in vas :: vas[a].vol == v && vas[a].node == n && vas[a].pinned && !vas[a].deleting
  }

  ghost predicate SnapFull(vms: map<Node, Machine>, p: View) {
    forall n, v :: Carried(vms, n, v) ==> Shows(p, n, v) || (n in p.snap && ActiveFor(p.vas, n, v))
  }

  ghost predicate ClaimsCore(w: World, p: View) {
    && p.claims.Keys <= w.used && SameClaims(w.claims, p.claims)
    && NewClaimsBare(w, p.claims) && LiveNotDeleted(p.claims, w.deleted)
  }

  ghost predicate VasCore(w: World, p: View) {
    OneVaPerVolume(p.vas) && VasListed(p) && ActivePinnedStay(w.vas, p.vas) && NoLateVas(w.vas, p)
  }

  ghost predicate CoreListed(w: World, p: View) {
    && p.stage <= PRUNING
    && (p.stage >= GOT_CLAIMS ==> ClaimsCore(w, p))
    && (p.stage >= GOT_PVS ==> w.pvs <= p.pvs)
    && (p.stage >= GOT_VAS ==> VasCore(w, p))
    && (p.stage >= GOT_HOSTS ==> OrphansGone(w.claims, w.used, p) && HostsKnown(w.hostPVCs, p))
    && (p.stage < RUNNING ==> p.tried == p.made == p.gone == p.pvGone == {})
    && DoneStays(w, p)
    && (p.stage == GOT_VMS ==> SnapHalf(w.vms, p))
    && (p.stage >= RUNNING ==> SnapFull(w.vms, p))
  }

  ghost predicate Core(s: Sys) {
    CoreLive(s.w) && CoreListed(s.w, s.p)
  }

  /* ----- Steps on VMs only ever shrink what is carried, AddVolume apart ----- */

  ghost predicate Shrunk(m: Machine, m': Machine) {
    forall v ::
      && (Wanted(m', NameFor(v)) ==> Wanted(m, NameFor(v)))
      && (Carries(m', NameFor(v)) ==> Carries(m, NameFor(v)))
  }

  ghost predicate ShrunkVms(vms: map<Node, Machine>, vms': map<Node, Machine>) {
    forall n | n in vms' ::
      || (n in vms && Shrunk(vms[n], vms'[n]))
      || (forall v :: !Carries(vms'[n], NameFor(v)))
  }

  lemma {:induction false} WithoutMembers(spec: seq<SpecVolume>, name: VolumeName, x: VolumeName)
    ensures InSpec(Without(spec, name), x) <==> InSpec(spec, x) && x != name
  {
    if spec != [] {
      WithoutMembers(spec[1..], name, x);
      SpecHead(spec, x);
      if spec[0].name != name { SpecHead(Without(spec, name), x); }
    }
  }

  lemma {:induction false} UnreportedMembers(status: seq<VolumeStatus>, name: VolumeName, x: VolumeName)
    ensures Reported(Unreported(status, name), x) <==> Reported(status, x) && x != name
  {
    if status != [] {
      UnreportedMembers(status[1..], name, x);
      ReportedHead(status, x);
      if status[0].name != name { ReportedHead(Unreported(status, name), x); }
    }
  }

  lemma AppliedShrinks(m: Machine, i: nat, x: VolumeName)
    requires i < |m.requests|
    ensures Wanted(Applied(m, i), x) ==> Wanted(m, x)
    ensures Carries(Applied(m, i), x) ==> Carries(m, x)
  {
    var m' := Applied(m, i);
    if Queued(m'.requests, x) {
      var k :| 0 <= k < |m'.requests| && m'.requests[k].Add? && m'.requests[k].name == x;
      assert m.requests[if k < i then k else k + 1] == m'.requests[k];
    }
    match m.requests[i] {
      case Add(name, claim) =>
        if InSpec(m'.spec, x) && !InSpec(m.spec, x) {
          var k :| 0 <= k < |m'.spec| && m'.spec[k].name == x;
          assert k == |m.spec|;
        }
      case Remove(name) =>
        WithoutMembers(m.spec, name, x);
    }
  }

  lemma KvShrinks(m: Machine, t: KvStep)
    requires KvEnabled(m, t)
    ensures Shrunk(m, KvDo(m, t))
  {
    var m' := KvDo(m, t);
    forall v
      ensures Wanted(m', NameFor(v)) ==> Wanted(m, NameFor(v))
      ensures Carries(m', NameFor(v)) ==> Carries(m, NameFor(v))
    {
      var x := NameFor(v);
      match t {
        case Apply(i) => AppliedShrinks(m, i, x);
        case Observe(_, _) =>
          if k :| 0 <= k < |m'.status| && m'.status[k].name == x {
            assert k < |m.status| ==> m.status[k].name == x;
          }
        case Progress(_, _) =>
          if k :| 0 <= k < |m'.status| && m'.status[k].name == x {
            assert m.status[k].name == x;
          }
        case Drop(name) => UnreportedMembers(m.status, name, x);
      }
    }
  }

  lemma RemoveRequestShrinks(m: Machine, name: VolumeName)
    ensures Shrunk(m, m.(requests := m.requests + [Remove(name)]))
  {
    var m' := m.(requests := m.requests + [Remove(name)]);
    forall v
      ensures Wanted(m', NameFor(v)) ==> Wanted(m, NameFor(v))
    {
      if Queued(m'.requests, NameFor(v)) {
        var k :| 0 <= k < |m'.requests| && m'.requests[k].Add? && m'.requests[k].name == NameFor(v);
        assert m.requests[k] == m'.requests[k];
      }
    }
  }

  lemma ShrunkAreCarried(vms: map<Node, Machine>, vms': map<Node, Machine>, n: Node, v: Volume)
    requires ShrunkVms(vms, vms')
    ensures Carried(vms', n, v) ==> Carried(vms, n, v)
    ensures n in vms' && Wanted(vms'[n], NameFor(v)) ==> n in vms && Wanted(vms[n], NameFor(v))
  {
  }

  lemma ShrinkingKeepsCore(s: Sys, vms': map<Node, Machine>)
    requires Core(s) && ShrunkVms(s.w.vms, vms')
    ensures Core(s.(w := s.w.(vms := vms')))
  {
    hide VasCore, OneVaPerVolume, VasHavePvs, OrphansGone;
    SameVas(s.w, s.w.(vms := vms'), s.p);
    forall n, v
      ensures Carried(vms', n, v) ==> Carried(s.w.vms, n, v)
      ensures n in vms' && Wanted(vms'[n], NameFor(v)) ==> n in s.w.vms && Wanted(s.w.vms[n], NameFor(v))
    {
      ShrunkAreCarried(s.w.vms, vms', n, v);
    }
  }

  // The VMs after a step of the host or of KubeVirt, or after a removevolume.
  lemma StepShrinks(s: Sys, t: Step)
    requires Enabled(s, t) && (t.Kube? || (t.Host? && (t.h.VmCreate? || t.h.VmDelete?)))
    ensures Do(s, t) == s.(w := s.w.(vms := Do(s, t).w.vms)) && ShrunkVms(s.w.vms, Do(s, t).w.vms)
  {
    if t.Kube? {
      KvShrinks(s.w.vms[t.n], t.k);
    } else if t.h.VmCreate? {
      assert forall v :: !Carries(Do(s, t).w.vms[t.h.n], NameFor(v));
    }
  }

  // The volume and VM of a removevolume call.
  predicate Removes(s: Sys, t: Step, n: Node, v: Volume) {
    t.Syncer? &&
    match t.c
    case RemoveForVa(a) => a in s.p.vas && s.p.vas[a].node == n && s.p.vas[a].vol == v
    case Unplug(u, m) => u == v && m == n
    case Sweep(m, u) => u == v && m == n
    case _ => false
  }

  lemma RemovalShrinks(s: Sys, t: Step, n: Node, v: Volume)
    requires Enabled(s, t) && Removes(s, t, n, v)
    ensures Do(s, t) == s.(w := s.w.(vms := Do(s, t).w.vms)) && ShrunkVms(s.w.vms, Do(s, t).w.vms)
  {
    RemoveRequestShrinks(s.w.vms[n], NameFor(v));
  }

  /* ----- The guest and the host ----- */

  lemma NewClaimKeepsCore(s: Sys, t: GuestStep)
    requires Core(s) && GuestEnabled(s.w, t) && t.ClaimCreate?
    ensures Core(s.(w := GuestDo(s.w, t)))
  {
    hide CarriedArePinned, SnapFull, SnapHalf, VasCore, OneVaPerVolume, VasHavePvs;
    var w' := GuestDo(s.w, t);
    SameVas(s.w, w', s.p);
    assert CoreLive(w') && (s.p.stage >= GOT_CLAIMS ==> ClaimsCore(w', s.p));
  }

  lemma OldClaimStaysKnown(s: Sys, t: GuestStep)
    requires Core(s) && GuestEnabled(s.w, t)
    requires t.ClaimSchedule? || t.ClaimDelete? || t.ClaimVanish?
    ensures CoreLive(GuestDo(s.w, t))
    ensures s.p.stage >= GOT_CLAIMS ==> ClaimsCore(GuestDo(s.w, t), s.p)
  {
    hide CarriedArePinned, SnapFull, SnapHalf, VasCore, OneVaPerVolume, VasHavePvs, OrphansGone, HostsKnown, DoneStays;
  }

  lemma OldClaimsKeepCore(s: Sys, t: GuestStep)
    requires Core(s) && GuestEnabled(s.w, t)
    requires t.ClaimSchedule? || t.ClaimDelete? || t.ClaimVanish?
    ensures Core(s.(w := GuestDo(s.w, t)))
  {
    hide CarriedArePinned, SnapFull, SnapHalf, VasCore, OneVaPerVolume, VasHavePvs, ClaimsCore, DeletedStay;
    var w' := GuestDo(s.w, t);
    assert w' == s.w.(claims := w'.claims, used := w'.used);
    SameVas(s.w, w', s.p);
    OldClaimStaysKnown(s, t);
  }

  lemma SameVas(w: World, w': World, p: View)
    requires w'.vas == w.vas
    ensures VasCore(w, p) <==> VasCore(w', p)
  {
  }

  // Attachments may appear, change flags, or vanish unpinned; whatever was pinned stays so.
  ghost predicate KeepsPinned(vas: map<string, Attachment>, vas': map<string, Attachment>) {
    forall a | a in vas && vas[a].pinned ::
      a in vas' && vas'[a].vol == vas[a].vol && vas'[a].node == vas[a].node && vas'[a].pinned
  }

  lemma PinnedForKept(vas: map<string, Attachment>, vas': map<string, Attachment>)
    requires KeepsPinned(vas, vas')
    ensures forall n, v | PinnedFor(vas, n, v) :: PinnedFor(vas', n, v)
  {
    forall n, v | PinnedFor(vas, n, v) ensures PinnedFor(vas', n, v) {
      var a :| a in vas && vas[a].vol == v && vas[a].node == n && vas[a].pinned;
      assert a in vas' && vas'[a].vol == v && vas'[a].node == n && vas'[a].pinned;
    }
  }

  // What a step of the guest on attachments has to keep, as far as the live stores and the listings go.
  ghost predicate VasLive(w: World) {
    OneVaPerVolume(w.vas) && VasHavePvs(w.vas, w.pvs) && CarriedArePinned(w.vms, w.vas)
  }

  lemma VaStepLive(s: Sys, t: GuestStep)
    requires Core(s) && GuestEnabled(s.w, t) && (t.VaCreate? || t.VaDelete? || t.VaVanish?)
    ensures VasLive(GuestDo(s.w, t))
  {
    hide CoreListed, PinnedFor;
    PinnedForKept(s.w.vas, GuestDo(s.w, t).vas);
  }

  // A new attachment: the guard looks at the live stores, and they say what the listings do.
  lemma NewVaListed(s: Sys, t: GuestStep)
    requires Core(s) && GuestEnabled(s.w, t) && t.VaCreate? && s.p.stage >= GOT_VAS
    ensures VasCore(GuestDo(s.w, t), s.p)
  {
    hide CarriedArePinned, SnapFull, SnapHalf, OrphansGone, HostsKnown, DoneStays;
  }

  lemma OldVaListed(s: Sys, t: GuestStep)
    requires Core(s) && GuestEnabled(s.w, t) && (t.VaDelete? || t.VaVanish?) && s.p.stage >= GOT_VAS
    ensures VasCore(GuestDo(s.w, t), s.p)
  {
    hide CarriedArePinned, SnapFull, SnapHalf, OrphansGone, HostsKnown, DoneStays, ClaimsCore, VasHavePvs;
  }

  lemma VaStepKeepsCore(s: Sys, t: GuestStep)
    requires Core(s) && GuestEnabled(s.w, t) && (t.VaCreate? || t.VaDelete? || t.VaVanish?)
    ensures Core(s.(w := GuestDo(s.w, t)))
  {
    hide SnapFull, SnapHalf, ClaimsCore, OrphansGone, VasCore, OneVaPerVolume, VasHavePvs, CarriedArePinned, DeletedStay, HostsKnown;
    var w' := GuestDo(s.w, t);
    assert w' == s.w.(vas := w'.vas);
    SameStores(s.w, w', s.p);
    VaStepLive(s, t);
    if s.p.stage >= GOT_VAS {
      if t.VaCreate? { NewVaListed(s, t); } else { OldVaListed(s, t); }
    }
  }

  lemma SameStores(w: World, w': World, p: View)
    requires w' == w.(vas := w'.vas)
    ensures ClaimsCore(w, p) <==> ClaimsCore(w', p)
  {
  }

  lemma HostKeepsCore(s: Sys, t: HostStep)
    requires Core(s) && HostEnabled(s.w, t)
    ensures Core(s.(w := HostDo(s.w, t)))
  {
    if t.VmCreate? || t.VmDelete? {
      StepShrinks(s, Host(t));
      ShrinkingKeepsCore(s, HostDo(s.w, t).vms);
    } else {
      hide CarriedArePinned, SnapFull, SnapHalf, VasCore, OneVaPerVolume, VasHavePvs;
      SameVas(s.w, HostDo(s.w, t), s.p);
    }
  }

  /* ----- The syncer's listings ----- */

  lemma GatherKeepsCore(s: Sys, t: Listing)
    requires Core(s) && ListEnabled(s.p, t)
    requires !t.ListVMs? && !t.ListVMIs?
    ensures Core(s.(p := ListDo(s.w, s.p, t)))
  {
  }

  lemma SnapshotKeepsCore(s: Sys, t: Listing)
    requires Core(s) && ListEnabled(s.p, t)
    requires t.ListVMs? || t.ListVMIs?
    ensures Core(s.(p := ListDo(s.w, s.p, t)))
  {
    var w, p, p' := s.w, s.p, ListDo(s.w, s.p, t);
    forall n, v
      ensures t.ListVMs? && n in w.vms && Wanted(w.vms[n], NameFor(v)) ==> Shows(p', n, v)
      ensures t.ListVMIs? && Carried(w.vms, n, v) ==> Shows(p', n, v)
    {
      if n in w.vms {
        if t.ListVMs? {
          MergeMeaning(w.vms[n].spec, w.vms[n].requests, [], NameFor(v));
        } else if n in p.snap {
          StatusMerged(p.snap[n], w.vms[n].status, NameFor(v));
        }
      }
    }
  }

  /* ----- The syncer's calls ----- */

  // A write to a listed attachment changes its flags in the listing too.
  lemma ListingKept(p: View, p': View)
    requires p'.vas.Keys == p.vas.Keys
    requires forall a | a in p.vas ::
      && p'.vas[a].vol == p.vas[a].vol && p'.vas[a].node == p.vas[a].node
      && (p.vas[a].pinned && !p.vas[a].deleting ==> p'.vas[a].pinned && !p'.vas[a].deleting)
    ensures forall v | Named(p, v) :: Named(p', v)
    ensures forall n, v | ActiveFor(p.vas, n, v) :: ActiveFor(p'.vas, n, v)
  {
    forall v | Named(p, v) ensures Named(p', v) {
      var a :| a in p.vas && p.vas[a].vol == v;
      assert a in p'.vas;
    }
    forall n, v | ActiveFor(p.vas, n, v) ensures ActiveFor(p'.vas, n, v) {
      var a :| a in p.vas && p.vas[a].vol == v && p.vas[a].node == n && p.vas[a].pinned && !p.vas[a].deleting;
      assert a in p'.vas;
    }
  }

  lemma OneVaKept(vas: map<string, Attachment>, a: string, va: Attachment)
    requires OneVaPerVolume(vas) && a in vas && va.vol == vas[a].vol
    ensures OneVaPerVolume(vas[a := va])
  {
  }

  // The listing's clauses about attachments, after a write to one that is still as listed.
  lemma VasKept(w: World, p: View, a: string, va: Attachment)
    requires VasCore(w, p) && Unchanged(w, p, a)
    requires va.vol == p.vas[a].vol && va.node == p.vas[a].node && va.deleting == p.vas[a].deleting
    requires p.vas[a].pinned ==> va.pinned
    ensures VasCore(w.(vas := w.vas[a := va]), p.(vas := p.vas[a := va]))
  {
    OneVaKept(p.vas, a, va);
  }

  lemma SnapKept(vms: map<Node, Machine>, p: View, a: string, va: Attachment)
    requires SnapFull(vms, p) && a in p.vas
    requires va.vol == p.vas[a].vol && va.node == p.vas[a].node && va.deleting == p.vas[a].deleting
    requires p.vas[a].pinned ==> va.pinned
    ensures SnapFull(vms, p.(vas := p.vas[a := va]))
  {
    ListingKept(p, p.(vas := p.vas[a := va]));
  }

  // A write to an attachment that is still as listed: it may gain the finalizer or a status.
  lemma VaWriteKeepsCore(s: Sys, a: string, va: Attachment)
    requires Core(s) && s.p.stage >= RUNNING && Unchanged(s.w, s.p, a)
    requires va.vol == s.p.vas[a].vol && va.node == s.p.vas[a].node && va.deleting == s.p.vas[a].deleting
    requires s.p.vas[a].pinned ==> va.pinned
    ensures Core(Sys(s.w.(vas := s.w.vas[a := va]), s.p.(vas := s.p.vas[a := va])))
  {
    OneVaKept(s.w.vas, a, va);
    PinnedForKept(s.w.vas, s.w.vas[a := va]);
    VasKept(s.w, s.p, a, va);
    SnapKept(s.w.vms, s.p, a, va);
  }

  // addvolume queues one volume on one VM.
  lemma OneMoreCarried(w: World, n: Node, v: Volume, m: Node, u: Volume)
    requires n in w.vms && Carried(Asked(w, n, Add(NameFor(v), v)).vms, m, u) && !(m == n && u == v)
    ensures Carried(w.vms, m, u)
  {
    var w' := Asked(w, n, Add(NameFor(v), v));
    if m == n && Queued(w'.vms[m].requests, NameFor(u)) {
      var k :| 0 <= k < |w'.vms[m].requests| && w'.vms[m].requests[k].Add? && w'.vms[m].requests[k].name == NameFor(u);
      assert w.vms[m].requests[k] == w'.vms[m].requests[k];
    }
  }

  /** An add decided from an old snapshot never gives a volume to a second VM. */
  lemma AddKeepsCore(s: Sys, a: string)
    requires Core(s) && Enabled(s, Syncer(AddVolume(a)))
    ensures Core(Do(s, Syncer(AddVolume(a))))
  {
    var w, w', p := s.w, CallWorld(s.w, s.p, AddVolume(a)), s.p;
    var va := p.vas[a];
    forall n, v | Carried(w'.vms, n, v) && !(n == va.node && v == va.vol) ensures Carried(w.vms, n, v) {
      OneMoreCarried(w, va.node, va.vol, n, v);
    }
    assert PinnedFor(w.vas, va.node, va.vol) by { assert a in w.vas; }
    assert ActiveFor(p.vas, va.node, va.vol) by { assert a in p.vas; }
  }

  /** Releasing an attachment is safe although the snapshot is old: the volume was off that VM
      when the snapshot was taken, and nothing in this pass can have added it since. */
  lemma ReleasedIsOff(s: Sys, a: string, n: Node)
    requires Core(s) && Enabled(s, Syncer(UnpinVa(a)))
    ensures !Carried(s.w.vms, n, s.p.vas[a].vol)
  {
    var v := s.p.vas[a].vol;
    // The only attachment for v, live or listed, is a itself.
    assert forall m | PinnedFor(s.w.vas, m, v) :: m == s.p.vas[a].node;
    assert forall m :: !ActiveFor(s.p.vas, m, v);
  }

  lemma ReleaseKeepsPinned(s: Sys, a: string)
    requires Core(s) && Enabled(s, Syncer(UnpinVa(a)))
    ensures CarriedArePinned(s.w.vms, CallWorld(s.w, s.p, UnpinVa(a)).vas)
  {
    var w, w' := s.w, CallWorld(s.w, s.p, UnpinVa(a));
    forall n, v | Carried(w.vms, n, v)
      ensures PinnedFor(w'.vas, n, v)
    {
      if v == s.p.vas[a].vol { ReleasedIsOff(s, a, n); }
      var b :| b in w.vas && w.vas[b].vol == v && w.vas[b].node == n && w.vas[b].pinned;
      assert b in w'.vas && w'.vas[b] == w.vas[b];
    }
  }

  lemma ReleaseKeepsCore(s: Sys, a: string)
    requires Core(s) && Enabled(s, Syncer(UnpinVa(a)))
    ensures Core(Do(s, Syncer(UnpinVa(a))))
  {
    hide CarriedArePinned, SnapFull, OneVaPerVolume;
    ReleaseKeepsPinned(s, a);
    OneVaKept(s.w.vas, a, s.w.vas[a].(pinned := false));
  }

  // A listed attachment always names a listed PV, so the zombie branch never fires.
  lemma NoZombies(s: Sys, a: string)
    requires Core(s)
    ensures !Enabled(s, Syncer(UnpinZombie(a)))
  {
  }

  // Nothing is attached to the volume of a claim the pass tears down, and no VM carries it.
  lemma TornDownHasNoVa(s: Sys, v: Volume)
    requires Core(s) && s.p.stage >= RUNNING && TeardownReady(s.p, v)
    ensures forall a | a in s.w.vas :: s.w.vas[a].vol != v
    ensures forall n :: !Carried(s.w.vms, n, v)
  {
    forall a | a in s.w.vas ensures s.w.vas[a].vol != v {
      if Doomed(s.p, s.w.vas[a].vol) { assert Named(s.p, s.w.vas[a].vol); }
    }
    forall n ensures !Carried(s.w.vms, n, v) {
      assert !PinnedFor(s.w.vas, n, v);
    }
  }

  // Calls that touch claims, host PVCs or PVs, or nothing at all.
  predicate OnClaims(t: Call) {
    || t.PinClaim? || t.PinClaimFails? || t.CreateHost? || t.CreatePV?
    || t.DeleteHost? || t.DeletePV? || t.UnpinClaim?
  }

  // Of the core these depend on the attachments and the VMs only.
  ghost predicate SnapCore(w: World, p: View) {
    && OneVaPerVolume(w.vas) && CarriedArePinned(w.vms, w.vas) && SnapFull(w.vms, p)
    && OneVaPerVolume(p.vas) && ActivePinnedStay(w.vas, p.vas) && NoLateVas(w.vas, p)
  }

  lemma SameSnap(s: Sys, s': Sys)
    requires SnapCore(s.w, s.p)
    requires s'.w.vas == s.w.vas && s'.w.vms == s.w.vms
    requires s'.p.vas == s.p.vas && s'.p.claims == s.p.claims && s'.p.snap == s.p.snap
    ensures SnapCore(s'.w, s'.p)
  {
    forall n, v ensures Shows(s'.p, n, v) == Shows(s.p, n, v) {}
    forall v ensures Doomed(s'.p, v) == Doomed(s.p, v) {}
  }

  // And these on the claims, disks and PVs.
  ghost predicate StoreCore(w: World, p: View) {
    && VasHavePvs(w.vas, w.pvs) && UsedCovers(w) && ClaimsCore(w, p) && w.pvs <= p.pvs && VasListed(p)
    && OrphansGone(w.claims, w.used, p) && HostsKnown(w.hostPVCs, p)
    && DeletedStay(w.deleted, w.claims, w.hostPVCs) && DoneStays(w, p)
  }

  lemma RunningCore(s: Sys)
    requires RUNNING <= s.p.stage <= PRUNING
    ensures Core(s) <==> SnapCore(s.w, s.p) && StoreCore(s.w, s.p)
  {
  }

  // A disk that nobody is to have any more is deleted, or was gone already.
  lemma DiskGoneKeepsStores(w: World, p: View, v: Volume)
    requires StoreCore(w, p) && v in p.hosts && Doomed(p, v)
    ensures StoreCore(w.(hostPVCs := w.hostPVCs - {v}, deleted := w.deleted + {v}), p.(gone := p.gone + {v}))
    ensures v !in w.hostPVCs ==> StoreCore(w, p.(gone := p.gone + {v}))
  {
    assert v in w.used && (v in w.claims ==> w.claims[v].deleting);
  }

  lemma DeleteHostKeepsStores(s: Sys, v: Volume)
    requires StoreCore(s.w, s.p) && Enabled(s, Syncer(DeleteHost(v)))
    ensures StoreCore(Do(s, Syncer(DeleteHost(v))).w, Do(s, Syncer(DeleteHost(v))).p)
  {
    hide StoreCore, Clear;
    DiskGoneKeepsStores(s.w, s.p, v);
  }

  // Nothing but our finalizer on claims changes.
  lemma PinsAloneKeepStores(w: World, p: View, w': World, p': View)
    requires StoreCore(w, p) && p' == p.(tried := p'.tried)
    requires w' == w.(claims := w'.claims) && w'.claims.Keys == w.claims.Keys
    requires forall v | v in w.claims :: w'.claims[v] == w.claims[v].(pinned := w'.claims[v].pinned)
    ensures StoreCore(w', p')
  {
    assert forall v :: v in w'.claims <==> v in w'.claims.Keys;
    assert forall v :: v in w.claims <==> v in w.claims.Keys;
  }

  lemma PinsKeepStores(s: Sys, t: Call)
    requires StoreCore(s.w, s.p) && Enabled(s, Syncer(t)) && (t.PinClaim? || t.PinClaimFails? || t.UnpinClaim?)
    ensures StoreCore(Do(s, Syncer(t)).w, Do(s, Syncer(t)).p)
  {
    hide StoreCore, TeardownDone, Provisionable;
    var s' := Do(s, Syncer(t));
    assert s'.w.claims.Keys == s.w.claims.Keys;
    PinsAloneKeepStores(s.w, s.p, s'.w, s'.p);
  }

  lemma CreatesKeepStores(s: Sys, t: Call)
    requires StoreCore(s.w, s.p) && Enabled(s, Syncer(t)) && (t.CreateHost? || t.CreatePV?)
    ensures StoreCore(Do(s, Syncer(t)).w, Do(s, Syncer(t)).p)
  {
    hide Named, Clear, Seen;
  }

  lemma DeletePVKeepsStores(s: Sys, v: Volume)
    requires StoreCore(s.w, s.p) && Enabled(s, Syncer(DeletePV(v))) && forall a | a in s.w.vas :: s.w.vas[a].vol != v
    ensures StoreCore(Do(s, Syncer(DeletePV(v))).w, Do(s, Syncer(DeletePV(v))).p)
  {
    hide Named, Clear, Seen;
  }

  lemma ClaimCallsKeepStores(s: Sys, t: Call)
    requires StoreCore(s.w, s.p) && Enabled(s, Syncer(t)) && OnClaims(t)
    requires t.DeletePV? ==> forall a | a in s.w.vas :: s.w.vas[a].vol != t.v
    ensures StoreCore(Do(s, Syncer(t)).w, Do(s, Syncer(t)).p)
  {
    hide StoreCore, Enabled, Do;
    if t.DeleteHost? {
      DeleteHostKeepsStores(s, t.v);
    } else if t.DeletePV? {
      DeletePVKeepsStores(s, t.v);
    } else if t.CreateHost? || t.CreatePV? {
      CreatesKeepStores(s, t);
    } else {
      PinsKeepStores(s, t);
    }
  }

  lemma ClaimCallsKeepCore(s: Sys, t: Call)
    requires Core(s) && Enabled(s, Syncer(t)) && OnClaims(t)
    ensures Core(Do(s, Syncer(t)))
  {
    hide Core, SnapCore, StoreCore;
    if t.DeletePV? { TornDownHasNoVa(s, t.v); }
    var s' := Do(s, Syncer(t));
    RunningCore(s);
    RunningCore(s');
    SameSnap(s, s');
    ClaimCallsKeepStores(s, t);
  }

  lemma CallKeepsCore(s: Sys, t: Call)
    requires Core(s) && Enabled(s, Syncer(t))
    ensures Core(Do(s, Syncer(t)))
  {
    hide CoreLive, CoreListed;
    match t {
      case PinVa(a) => VaWriteKeepsCore(s, a, s.w.vas[a].(pinned := true));
      case Report(a) => VaWriteKeepsCore(s, a, ReportedReady(s.w.vas[a]));
      case ReportNoVm(a) => VaWriteKeepsCore(s, a, ReportedUnbacked(s.w.vas[a]));
      case AddVolume(a) => AddKeepsCore(s, a);
      case UnpinVa(a) => ReleaseKeepsCore(s, a);
      case UnpinZombie(a) => NoZombies(s, a);
      case RemoveForVa(a) => RemovalKeepsCore(s, t, s.p.vas[a].node, s.p.vas[a].vol);
      case Unplug(v, n) => RemovalKeepsCore(s, t, n, v);
      case Sweep(n, v) => RemovalKeepsCore(s, t, n, v);
      case _ => ClaimCallsKeepCore(s, t);
    }
  }

  lemma RemovalKeepsCore(s: Sys, t: Call, n: Node, v: Volume)
    requires Core(s) && Enabled(s, Syncer(t)) && Removes(s, Syncer(t), n, v)
    ensures Core(Do(s, Syncer(t)))
  {
    RemovalShrinks(s, Syncer(t), n, v);
    ShrinkingKeepsCore(s, Do(s, Syncer(t)).w.vms);
  }

  /** Every step of every party keeps the core, the bad ones included. */
  lemma CoreStep(s: Sys, t: Step)
    requires Core(s) && Enabled(s, t)
    ensures Core(Do(s, t))
  {
    hide CoreLive, CoreListed;
    match t {
      case Guest(g) =>
        if g.VaCreate? || g.VaDelete? || g.VaVanish? {
          VaStepKeepsCore(s, g);
        } else if g.ClaimCreate? {
          NewClaimKeepsCore(s, g);
        } else {
          OldClaimsKeepCore(s, g);
        }
      case Host(h) => HostKeepsCore(s, h);
      case Kube(n, k) =>
        StepShrinks(s, t);
        ShrinkingKeepsCore(s, Do(s, t).w.vms);
      case List(l) =>
        if l.ListVMs? || l.ListVMIs? { SnapshotKeepsCore(s, l); } else { GatherKeepsCore(s, l); }
      case Syncer(c) => CallKeepsCore(s, c);
    }
  }

  lemma CoreInit()
    ensures Core(Empty)
  {
  }

  lemma {:induction false} CoreHolds(sched: seq<Step>, states: seq<Sys>, i: nat)
    requires Runs(sched, states) && i < |states|
    ensures Core(states[i])
    decreases i
  {
    hide CoreLive, CoreListed;
    if i == 0 {
      CoreInit();
    } else {
      CoreHolds(sched, states, i - 1);
      CoreStep(states[i - 1], sched[i - 1]);
    }
  }
}
