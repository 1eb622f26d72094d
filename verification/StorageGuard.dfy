/** Unplug before delete, in every run: when deleting a disk is safe, exactly. The pass deletes the disks
    of orphans without a look at the attachments; that look is the guard this module is about. */
module StorageGuard {
  import opened Hotplug
  import opened StorageMachine
  import opened StorageCore
  import opened StorageInvariant
  import opened StorageSafety

  /* ----- A volume that can never be carried again ----- */

  // A pass that is applying could plug the volume in on the strength of its listings.
  predicate Armed(p: View, a: string, v: Volume) {
    a in p.vas && p.vas[a].vol == v && !p.vas[a].deleting && p.vas[a].pinned && p.vas[a].node in p.snap
  }

  // The volume is attached: somebody is entitled to find it on a VM.
  predicate LiveVa(vas: map<string, Attachment>, a: string, v: Volume) {
    a in vas && vas[a].vol == v && !vas[a].deleting
  }

  // Or a VM has it already.
  ghost predicate Exposed(s: Sys, v: Volume) {
    (exists a :: LiveVa(s.w.vas, a, v)) || (exists n :: Carried(s.w.vms, n, v))
  }

  ghost predicate Dead(s: Sys, v: Volume) {
    && v in s.w.used && (v in s.w.claims ==> s.w.claims[v].deleting)
    && (forall n :: !Carried(s.w.vms, n, v))
    && (forall a :: !LiveVa(s.w.vas, a, v))
    && (s.p.stage < RUNNING ==> forall a | a in s.p.vas && s.p.vas[a].vol == v :: s.p.vas[a].deleting)
    && (s.p.stage == RUNNING ==> forall a :: !Armed(s.p, a, v))
  }

  lemma SameVerdicts(s: Sys, s': Sys, v: Volume)
    requires s'.w.vas == s.w.vas && s'.p.vas == s.p.vas && s'.p.snap == s.p.snap
    ensures forall a :: LiveVa(s'.w.vas, a, v) == LiveVa(s.w.vas, a, v) && Armed(s'.p, a, v) == Armed(s.p, a, v)
  {
  }

  lemma DeadVms(s: Sys, t: Step, v: Volume)
    requires Dead(s, v) && Enabled(s, t)
    requires Do(s, t) == s.(w := s.w.(vms := Do(s, t).w.vms)) && ShrunkVms(s.w.vms, Do(s, t).w.vms)
    ensures Dead(Do(s, t), v)
  {
    SameVerdicts(s, Do(s, t), v);
    forall n ensures !Carried(Do(s, t).w.vms, n, v) {
      ShrunkAreCarried(s.w.vms, Do(s, t).w.vms, n, v);
    }
  }

  lemma DeadAdd(s: Sys, a: string, v: Volume)
    requires Dead(s, v) && Enabled(s, Syncer(AddVolume(a)))
    ensures Dead(Do(s, Syncer(AddVolume(a))), v)
  {
    assert !Armed(s.p, a, v);
    var s' := Do(s, Syncer(AddVolume(a)));
    SameVerdicts(s, s', v);
    forall n ensures Carried(s'.w.vms, n, v) ==> Carried(s.w.vms, n, v) {
      if Carried(s'.w.vms, n, v) { OneMoreCarried(s.w, s.p.vas[a].node, s.p.vas[a].vol, n, v); }
    }
  }

  lemma DeadGuest(s: Sys, t: GuestStep, v: Volume)
    requires Dead(s, v) && GuestEnabled(s.w, t)
    ensures Dead(s.(w := GuestDo(s.w, t)), v)
  {
    hide Carries;
    var s' := s.(w := GuestDo(s.w, t));
    forall a ensures !LiveVa(s'.w.vas, a, v) { assert !LiveVa(s.w.vas, a, v); }
    forall n ensures !Carried(s'.w.vms, n, v) { assert !Carried(s.w.vms, n, v); }
  }

  lemma DeadList(s: Sys, t: Listing, v: Volume)
    requires Dead(s, v) && ListEnabled(s.p, t)
    ensures Dead(s.(p := ListDo(s.w, s.p, t)), v)
  {
    hide Carries;
    var p' := ListDo(s.w, s.p, t);
    if t.ListVAs? {
      forall a | a in p'.vas && p'.vas[a].vol == v ensures p'.vas[a].deleting { assert !LiveVa(s.w.vas, a, v); }
    }
  }

  // The calls that change neither a VM nor an attachment.
  lemma DeadClaimCall(s: Sys, t: Call, v: Volume)
    requires Dead(s, v) && Enabled(s, Syncer(t)) && OnClaims(t)
    ensures Dead(Do(s, Syncer(t)), v)
  {
    hide Carries;
    var s' := Do(s, Syncer(t));
    SameVerdicts(s, s', v);
  }

  // A write to an attachment that is as listed: the volume has none that is active.
  lemma DeadVaCall(s: Sys, t: Call, v: Volume)
    requires Dead(s, v) && Enabled(s, Syncer(t))
    requires t.PinVa? || t.Report? || t.ReportNoVm? || t.UnpinVa? || t.UnpinZombie?
    ensures Dead(Do(s, Syncer(t)), v)
  {
    hide Carries;
    var s' := Do(s, Syncer(t));
    assert !LiveVa(s.w.vas, t.a, v);
    forall a ensures !LiveVa(s'.w.vas, a, v) { assert !LiveVa(s.w.vas, a, v); }
    if s.p.stage == RUNNING {
      forall a ensures !Armed(s'.p, a, v) { assert !Armed(s.p, a, v); }
    }
  }

  lemma DeadCall(s: Sys, t: Call, v: Volume)
    requires Dead(s, v) && Enabled(s, Syncer(t))
    ensures Dead(Do(s, Syncer(t)), v)
  {
    hide Dead;
    match t {
      case AddVolume(a) => DeadAdd(s, a, v);
      case RemoveForVa(a) =>
        RemovalShrinks(s, Syncer(t), s.p.vas[a].node, s.p.vas[a].vol);
        DeadVms(s, Syncer(t), v);
      case Unplug(u, n) =>
        RemovalShrinks(s, Syncer(t), n, u);
        DeadVms(s, Syncer(t), v);
      case Sweep(n, u) =>
        RemovalShrinks(s, Syncer(t), n, u);
        DeadVms(s, Syncer(t), v);
      case _ =>
        if OnClaims(t) { DeadClaimCall(s, t, v); } else { DeadVaCall(s, t, v); }
    }
  }

  /** Nothing brings such a volume back, whoever moves. */
  lemma DeadStep(s: Sys, t: Step, v: Volume)
    requires Dead(s, v) && Enabled(s, t)
    ensures Dead(Do(s, t), v)
  {
    match t {
      case Guest(g) => DeadGuest(s, g, v);
      case Host(h) =>
        if h.VmCreate? || h.VmDelete? {
          StepShrinks(s, t);
          DeadVms(s, t, v);
        } else {
          SameVerdicts(s, Do(s, t), v);
        }
      case Kube(_, _) =>
        StepShrinks(s, t);
        DeadVms(s, t, v);
      case List(l) => DeadList(s, l, v);
      case Syncer(c) => DeadCall(s, c, v);
    }
  }

  lemma {:induction false} DeadFrom(sched: seq<Step>, states: seq<Sys>, i: nat, k: nat, v: Volume)
    requires Runs(sched, states) && i <= k < |states| && Dead(states[i], v)
    ensures Dead(states[k], v)
    decreases k
  {
    hide Dead;
    if i < k {
      DeadFrom(sched, states, i, k - 1, v);
      DeadStep(states[k - 1], sched[k - 1], v);
    }
  }

  /** Deleting the disk of a volume that is not exposed makes it dead. */
  lemma DeleteKills(s: Sys, v: Volume)
    requires Core(s) && Enabled(s, Syncer(DeleteHost(v))) && !Exposed(s, v)
    ensures Dead(Do(s, Syncer(DeleteHost(v))), v)
  {
    hide Carries;
    SameVerdicts(s, Do(s, Syncer(DeleteHost(v))), v);
  }

  /* ----- The guard ----- */

  // What the orphan branch does not check, and the branch for deleting claims does.
  predicate Guarded(p: View, v: Volume) {
    forall a | a in p.vas && p.vas[a].vol == v :: p.vas[a].deleting
  }

  lemma GuardedIsHidden(s: Sys, v: Volume)
    requires Core(s) && Enabled(s, Syncer(DeleteHost(v))) && Guarded(s.p, v)
    ensures !Exposed(s, v)
  {
    assert Doomed(s.p, v);
    forall n ensures !Carried(s.w.vms, n, v) {
      assert !Shows(s.p, n, v) && !ActiveFor(s.p.vas, n, v);
    }
  }

  ghost predicate GuardedRun(sched: seq<Step>, states: seq<Sys>, v: Volume) {
    Runs(sched, states) && forall j | 0 <= j < |sched| && sched[j] == Syncer(DeleteHost(v)) :: Guarded(states[j].p, v)
  }

  // One step of such a run.
  lemma DeletedStep(s: Sys, t: Step, v: Volume)
    requires Core(s) && Enabled(s, t) && (t == Syncer(DeleteHost(v)) ==> Guarded(s.p, v))
    requires v in s.w.deleted ==> Dead(s, v)
    ensures v in Do(s, t).w.deleted ==> Dead(Do(s, t), v)
  {
    hide Dead, Guarded, Core, Exposed;
    if v in s.w.deleted {
      DeadStep(s, t, v);
    } else if v in Do(s, t).w.deleted {
      OnlyDeleteHostDeletes(s, t, v);
      GuardedIsHidden(s, v);
      DeleteKills(s, v);
    }
  }

  lemma {:induction false} DeletedIsDead(sched: seq<Step>, states: seq<Sys>, i: nat, v: Volume)
    requires GuardedRun(sched, states, v) && i < |states|
    ensures v in states[i].w.deleted ==> Dead(states[i], v)
    decreases i
  {
    hide Dead, Guarded, Core;
    if i > 0 {
      DeletedIsDead(sched, states, i - 1, v);
      CoreHolds(sched, states, i - 1);
      DeletedStep(states[i - 1], sched[i - 1], v);
    }
  }

  lemma OnlyDeleteHostDeletes(s: Sys, t: Step, v: Volume)
    requires Enabled(s, t) && v !in s.w.deleted && v in Do(s, t).w.deleted
    ensures t == Syncer(DeleteHost(v))
  {
  }

  /** Unplug before delete, in every run: if no listed attachment of the volume is active whenever its
      disk is deleted, then no VM carries it once it is deleted, then or ever after. */
  lemma GuardedUnplugBeforeDelete(sched: seq<Step>, states: seq<Sys>, i: nat, v: Volume, n: Node)
    requires GuardedRun(sched, states, v) && i < |states|
    requires v in states[i].w.deleted
    ensures !Carried(states[i].w.vms, n, v)
  {
    DeletedIsDead(sched, states, i, v);
  }

  lemma GoodDeleteIsGuarded(s: Sys, v: Volume)
    requires Inv(s) && Enabled(s, Syncer(DeleteHost(v)))
    ensures Guarded(s.p, v)
  {
    assert !TeardownReady(s.p, v) ==> Orphan(s.p, v);
  }

  /** In good runs the guard always holds, so there it need not be checked: no VM carries a volume whose
      host PVC the syncer has deleted, then or ever after. */
  lemma UnplugBeforeDelete(sched: seq<Step>, states: seq<Sys>, i: nat, v: Volume, n: Node)
    requires GoodRun(sched, states) && i < |states|
    requires v in states[i].w.deleted
    ensures !Carried(states[i].w.vms, n, v)
  {
    forall j | 0 <= j < |sched| && sched[j] == Syncer(DeleteHost(v)) ensures Guarded(states[j].p, v) {
      InvHolds(sched, states, j);
      GoodDeleteIsGuarded(states[j], v);
    }
    GuardedUnplugBeforeDelete(sched, states, i, v, n);
  }

  /* ----- The converse: an exposed volume can come back ----- */

  ghost predicate Extends(sched: seq<Step>, states: seq<Sys>, sched': seq<Step>, states': seq<Sys>) {
    Runs(sched', states') && sched <= sched' && states <= states'
  }

  // One more step.
  lemma Extend(sched: seq<Step>, states: seq<Sys>, t: Step) returns (sched': seq<Step>, states': seq<Sys>, s: Sys)
    requires Runs(sched, states) && Enabled(states[|sched|], t)
    ensures sched' == sched + [t] && s == Do(states[|sched|], t) && states' == states + [s]
    ensures |states'| == |sched'| + 1 && Extends(sched, states, sched', states') && states'[|sched'|] == s
  {
    s := Do(states[|sched|], t);
    sched', states' := sched + [t], states + [s];
  }

  function Shown(m: Machine): Volumes {
    WithStatus(FromMachine(m.spec, m.requests), m.status)
  }

  function Listings(w: World): View {
    View(RUNNING, w.claims, w.pvs, w.vas, w.offered, w.hostPVCs, map n | n in w.vms :: Shown(w.vms[n]), {}, {}, {}, {})
  }

  // A run has a state before each step and one after the last.
  lemma RunLength(sched: seq<Step>, states: seq<Sys>)
    requires Runs(sched, states)
    ensures |states| == |sched| + 1
  {
  }

  lemma GatherGuest(sched: seq<Step>, states: seq<Sys>) returns (sched': seq<Step>, states': seq<Sys>, s: Sys)
    requires Runs(sched, states) && states[|sched|].p == NoView
    ensures |states'| == |sched'| + 1 && Extends(sched, states, sched', states') && states'[|sched'|] == s
    ensures var w := states[|sched|].w; s == Sys(w, NoView.(stage := GOT_VAS, claims := w.claims, pvs := w.pvs, vas := w.vas))
  {
    hide Runs;
    RunLength(sched, states);
    sched', states', s := Extend(sched, states, List(ListClaims));
    sched', states', s := Extend(sched', states', List(ListPVs));
    sched', states', s := Extend(sched', states', List(ListVAs));
  }

  // A whole gather with nobody else moving.
  lemma GatherRun(sched: seq<Step>, states: seq<Sys>) returns (sched': seq<Step>, states': seq<Sys>, s: Sys)
    requires Runs(sched, states) && states[|sched|].p == NoView
    ensures |states'| == |sched'| + 1 && Extends(sched, states, sched', states') && states'[|sched'|] == s
    ensures s == Sys(states[|sched|].w, Listings(states[|sched|].w))
  {
    hide Runs;
    RunLength(sched, states);
    ghost var w := states[|sched|].w;
    sched', states', s := GatherGuest(sched, states);
    sched', states', s := Extend(sched', states', List(ListClasses));
    sched', states', s := Extend(sched', states', List(ListHosts));
    sched', states', s := Extend(sched', states', List(ListVMs));
    sched', states', s := Extend(sched', states', List(ListVMIs));
    assert s.p.snap == Listings(w).snap;
  }

  lemma AddedIsCarried(m: Machine, name: VolumeName, claim: string)
    ensures Carries(m.(requests := m.requests + [Add(name, claim)]), name)
  {
    var r := m.requests + [Add(name, claim)];
    assert r[|m.requests|].Add? && r[|m.requests|].name == name;
  }

  // The VM is there, or comes back empty.
  lemma WithNode(sched: seq<Step>, states: seq<Sys>, n: Node) returns (sched': seq<Step>, states': seq<Sys>, s: Sys)
    requires Runs(sched, states)
    ensures |states'| == |sched'| + 1 && Extends(sched, states, sched', states') && states'[|sched'|] == s
    ensures var s0 := states[|sched|];
            n in s.w.vms && s == s0.(w := s0.w.(vms := s.w.vms)) && (n in s0.w.vms ==> s == s0)
    ensures n !in states[|sched|].w.vms ==> s.w.vms[n] == Machine([], [], [])
  {
    if n in states[|sched|].w.vms {
      sched', states', s := sched, states, states[|sched|];
    } else {
      sched', states', s := Extend(sched, states, Host(VmCreate(n, [])));
    }
  }

  // The pass plugs the volume in.
  lemma Plug(sched: seq<Step>, states: seq<Sys>, a: string, v: Volume) returns (sched': seq<Step>, states': seq<Sys>, n: Node)
    requires Runs(sched, states)
    requires var s := states[|sched|];
             && s.p.stage == RUNNING && Armed(s.p, a, v) && v in s.p.pvs && s.p.vas[a].node in s.w.vms
             && !Shows(s.p, s.p.vas[a].node, v)
    ensures Extends(sched, states, sched', states')
    ensures states'[|sched'|].w.deleted == states[|sched|].w.deleted && Carried(states'[|sched'|].w.vms, n, v)
  {
    var s := states[|sched|];
    n := s.p.vas[a].node;
    AddedIsCarried(s.w.vms[n], NameFor(v), v);
    assert Seen(s.p, n, v) == Unknown;
    sched', states', s := Extend(sched, states, Syncer(AddVolume(a)));
  }

  // What a listing shows is what the VM carries.
  lemma ShownIsCarried(w: World, n: Node, v: Volume)
    requires n in w.vms
    ensures Shows(Listings(w), n, v) <==> Carried(w.vms, n, v)
  {
    MergeMeaning(w.vms[n].spec, w.vms[n].requests, w.vms[n].status, NameFor(v));
  }

  // The next pass begins, with the VM there.
  lemma NextPass(sched: seq<Step>, states: seq<Sys>, n: Node) returns (sched': seq<Step>, states': seq<Sys>, s: Sys)
    requires Runs(sched, states)
    ensures |states'| == |sched'| + 1 && Extends(sched, states, sched', states') && states'[|sched'|] == s
    ensures s.p == NoView && n in s.w.vms && s.w == states[|sched|].w.(vms := s.w.vms)
  {
    hide Runs;
    RunLength(sched, states);
    sched', states', s := Extend(sched, states, List(EndPass));
    sched', states', s := WithNode(sched', states', n);
  }

  // It pins the attachment, if that is still to be done.
  lemma PinnedNext(sched: seq<Step>, states: seq<Sys>, a: string, v: Volume) returns (sched': seq<Step>, states': seq<Sys>, s: Sys)
    requires Runs(sched, states)
    requires var w := states[|sched|].w;
             && states[|sched|].p == NoView && LiveVa(w.vas, a, v) && v in w.pvs && w.vas[a].node in w.vms
    ensures |states'| == |sched'| + 1 && Extends(sched, states, sched', states') && states'[|sched'|] == s
    ensures var w := states[|sched|].w;
            && s.w == w.(vas := s.w.vas) && s.p == Listings(w).(vas := s.p.vas) && Armed(s.p, a, v) && s.p.vas[a].node == w.vas[a].node
  {
    hide Runs, Carries, Shown;
    RunLength(sched, states);
    sched', states', s := GatherRun(sched, states);
    if !s.p.vas[a].pinned {
      sched', states', s := Extend(sched', states', Syncer(PinVa(a)));
    }
  }

  // A live attachment is served by the next pass.
  lemma NextPassPlugs(sched: seq<Step>, states: seq<Sys>, a: string, v: Volume) returns (sched': seq<Step>, states': seq<Sys>, n: Node)
    requires Runs(sched, states) && LiveVa(states[|sched|].w.vas, a, v) && v in states[|sched|].w.pvs
    ensures Extends(sched, states, sched', states')
    ensures states'[|sched'|].w.deleted == states[|sched|].w.deleted && Carried(states'[|sched'|].w.vms, n, v)
  {
    hide Runs, Carries, Enabled, Do;
    RunLength(sched, states);
    n := states[|sched|].w.vas[a].node;
    var s: Sys;
    sched', states', s := NextPass(sched, states, n);
    if !Carried(s.w.vms, n, v) {
      ShownIsCarried(s.w, n, v);
      ghost var w := s.w;
      sched', states', s := PinnedNext(sched', states', a, v);
      assert Shows(s.p, n, v) == Shows(Listings(w), n, v);
      sched', states', n := Plug(sched', states', a, v);
    }
  }

  /** An exposed volume can be on a VM again, whatever has become of its disk: the next pass serves its
      attachment, also when its VM was gone in between. */
  lemma ExposedReturns(sched: seq<Step>, states: seq<Sys>, v: Volume) returns (sched': seq<Step>, states': seq<Sys>, n: Node)
    requires Runs(sched, states) && Exposed(states[|sched|], v)
    ensures Extends(sched, states, sched', states')
    ensures states'[|sched'|].w.deleted == states[|sched|].w.deleted && Carried(states'[|sched'|].w.vms, n, v)
  {
    CoreHolds(sched, states, |sched|);
    var s := states[|sched|];
    if a :| LiveVa(s.w.vas, a, v) {
      sched', states', n := NextPassPlugs(sched, states, a, v);
    } else {
      sched', states' := sched, states;
      n :| Carried(s.w.vms, n, v);
    }
  }

  // Some continuation ends with the deleted disk wanted by a VM.
  ghost predicate Returns(sched: seq<Step>, states: seq<Sys>, v: Volume) {
    exists sched': seq<Step>, states': seq<Sys>, n: Node ::
      Extends(sched, states, sched', states') && v in states'[|sched'|].w.deleted && Carried(states'[|sched'|].w.vms, n, v)
  }

  /** Deleting a disk, exactly: in every run, from a deletion on the volume stays off every VM for ever,
      in every continuation, if and only if at that moment no VM carried it and no attachment of it was
      live. */
  lemma DeleteExactly(sched: seq<Step>, states: seq<Sys>, v: Volume)
    requires Runs(sched, states) && sched != [] && sched[|sched| - 1] == Syncer(DeleteHost(v))
    requires v in states[|sched| - 1].w.hostPVCs
    ensures Returns(sched, states, v) <==> Exposed(states[|sched| - 1], v)
  {
    var k := |sched| - 1;
    var s, e := states[k], states[|sched|];
    CoreHolds(sched, states, k);
    SameVerdicts(s, e, v);
    if Exposed(s, v) {
      assert e.w.vms == s.w.vms;
      var sched', states', n := ExposedReturns(sched, states, v);
    } else {
      DeleteKills(s, v);
      forall sched': seq<Step>, states': seq<Sys>, n: Node | Extends(sched, states, sched', states') ensures !Carried(states'[|sched'|].w.vms, n, v) {
        assert states'[|sched|] == e;
        DeadFrom(sched', states', |sched|, |sched'|, v);
      }
    }
  }
}
