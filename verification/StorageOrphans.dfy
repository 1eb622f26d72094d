/** The path on which the storage protocol is only as safe as the finalizer writes before it: the
    orphan branch of pruneStorage, one undisturbed pass of it, and a run in which it goes wrong. When
    such a deletion is safe in any run is what module StorageGuard proves. */
module StorageOrphans {
  import opened Hotplug
  import opened StorageMachine
  import opened StorageCore
  import opened StorageGuard
  import opened StoragePlan
  import opened Wrappers

  // The calls taking effect one after the other, with nobody else moving.
  ghost function Exec(s: Sys, calls: seq<Call>): Option<Sys>
    decreases |calls|
  {
    if calls == [] then Some(s)
    else if !Enabled(s, Syncer(calls[0])) then None
    else Exec(Do(s, Syncer(calls[0])), calls[1..])
  }

  lemma ExecOne(s: Sys, c: Call)
    ensures Exec(s, [c]) == if Enabled(s, Syncer(c)) then Some(Do(s, Syncer(c))) else None
  {
    assert [c][1..] == [];
    if Enabled(s, Syncer(c)) {
      assert Exec(Do(s, Syncer(c)), []) == Some(Do(s, Syncer(c)));
    }
  }

  /* ----- The orphan path, exactly ----- */

  // The listings are current: nothing has moved since they were taken.
  ghost predicate Current(s: Sys, v: Volume) {
    && s.p.stage == RUNNING
    && s.p.vas == s.w.vas && OneVaPerVolume(s.w.vas)
    && s.p.snap.Keys == s.w.vms.Keys
    && forall n :: Carried(s.w.vms, n, v) <==> Shows(s.p, n, v)
  }

  // An active attachment of the volume that the pass is about to serve.
  ghost predicate ActiveAttachment(p: View, v: Volume) {
    exists a | a in p.vas :: p.vas[a].vol == v && !p.vas[a].deleting && v in p.pvs && p.vas[a].node in p.snap
  }

  // Pruning begins, and the disk is deleted.
  ghost function ThenDeleted(s: Option<Sys>, v: Volume): Option<Sys> {
    if s.None? || !Enabled(s.value, List(StartPrune)) then None
    else Exec(Do(s.value, List(StartPrune)), [DeleteHost(v)])
  }

  // Apply for the volume's attachment, if there is one, and then the orphan path of prune.
  ghost function OrphanPass(s: Sys, v: Volume): Option<Sys> {
    ThenDeleted(if a :| a in s.p.vas && s.p.vas[a].vol == v then Exec(s, AttachmentPlan(s.p, a)) else Some(s), v)
  }

  lemma DeletedAfter(s: Sys, v: Volume)
    requires s.p.stage == RUNNING && Orphan(s.p, v) && Clear(s.p, v) && v in s.w.hostPVCs
    ensures ThenDeleted(Some(s), v).Some?
    ensures ThenDeleted(Some(s), v).value.w == s.w.(hostPVCs := s.w.hostPVCs - {v}, deleted := s.w.deleted + {v})
  {
    hide Exec;
    var s' := Do(s, List(StartPrune));
    assert Clear(s'.p, v);
    ExecOne(s', DeleteHost(v));
  }

  // What an active attachment's plan does, when every call takes effect.
  lemma Served(s: Sys, v: Volume, a: string)
    requires Current(s, v) && Clear(s.p, v)
    requires a in s.p.vas && s.p.vas[a].vol == v && v in s.p.pvs && !s.p.vas[a].deleting
    ensures var end := Exec(s, AttachmentPlan(s.p, a)); var n := s.p.vas[a].node;
            && end.Some? && end.value.p == s.p.(vas := end.value.p.vas) && end.value.w.hostPVCs == s.w.hostPVCs
            && (n in s.p.snap ==> Carried(end.value.w.vms, n, v)) && (n !in s.p.snap ==> end.value.w.vms == s.w.vms)
  {
    hide Carried, Carries, OneVaPerVolume;
    var va, plan := s.p.vas[a], AttachmentPlan(s.p, a);
    assert !Shows(s.p, va.node, v) && Seen(s.p, va.node, v) == Unknown;
    var s1 := if va.pinned then s else Do(s, Syncer(PinVa(a)));
    var rest := if va.node in s.p.snap then [AddVolume(a)] else [];
    assert plan == if va.pinned then rest else [PinVa(a)] + rest;
    assert Exec(s, plan) == Exec(s1, rest) by {
      if !va.pinned { assert plan[1..] == rest; }
    }
    if va.node in s.p.snap {
      ExecOne(s1, AddVolume(a));
      AddedThere(s1, a);
    }
  }

  lemma AddedThere(s: Sys, a: string)
    requires Enabled(s, Syncer(AddVolume(a)))
    ensures Carried(Do(s, Syncer(AddVolume(a))).w.vms, s.p.vas[a].node, s.p.vas[a].vol)
  {
    AddedIsCarried(s.w.vms[s.p.vas[a].node], NameFor(s.p.vas[a].vol), s.p.vas[a].vol);
  }

  // The volume's one attachment is active: it is served first, and then the disk is deleted.
  lemma OrphanServed(s: Sys, v: Volume, a: string)
    requires Current(s, v) && Orphan(s.p, v) && Clear(s.p, v) && v in s.w.hostPVCs
    requires a in s.p.vas && s.p.vas[a].vol == v && v in s.p.pvs && !s.p.vas[a].deleting
    ensures var end := ThenDeleted(Exec(s, AttachmentPlan(s.p, a)), v);
            && end.Some? && v in end.value.w.deleted
            && (s.p.vas[a].node in s.p.snap ==> Carried(end.value.w.vms, s.p.vas[a].node, v))
            && (s.p.vas[a].node !in s.p.snap ==> end.value.w.vms == s.w.vms)
  {
    hide Carried, Carries, OneVaPerVolume, Exec, ThenDeleted, AttachmentPlan;
    Served(s, v, a);
    DeletedAfter(Exec(s, AttachmentPlan(s.p, a)).value, v);
  }

  // Otherwise at most a finalizer is released, and no VM changes.
  lemma OrphanReleased(s: Sys, v: Volume, a: string)
    requires Current(s, v) && Orphan(s.p, v) && Clear(s.p, v) && v in s.w.hostPVCs
    requires a in s.p.vas && s.p.vas[a].vol == v && !(v in s.p.pvs && !s.p.vas[a].deleting)
    ensures var end := ThenDeleted(Exec(s, AttachmentPlan(s.p, a)), v);
            end.Some? && v in end.value.w.deleted && end.value.w.vms == s.w.vms
  {
    hide Carried, Carries, ThenDeleted;
    var plan := AttachmentPlan(s.p, a);
    if plan == [] {
      DeletedAfter(s, v);
    } else {
      var c := plan[0];
      assert !Shows(s.p, s.p.vas[a].node, v);
      assert c == UnpinZombie(a) || c == UnpinVa(a);
      assert plan == [c];
      ExecOne(s, c);
      assert Clear(Do(s, Syncer(c)).p, v);
      DeletedAfter(Do(s, Syncer(c)), v);
    }
  }

  /** A host PVC whose claim is gone is deleted without a look at the attachments. On current
      listings, with every call taking effect, the pass ends with a deleted disk still wanted by a VM
      if and only if the listing shows an active attachment for it. */
  lemma OrphanPathExactly(s: Sys, v: Volume)
    requires Current(s, v) && Orphan(s.p, v) && Clear(s.p, v) && v in s.w.hostPVCs
    ensures OrphanPass(s, v).Some?
    ensures var w := OrphanPass(s, v).value.w;
            v in w.deleted && ((exists n :: Carried(w.vms, n, v)) <==> ActiveAttachment(s.p, v))
  {
    hide ThenDeleted, AttachmentPlan, Exec, Carries;
    forall n ensures !Carried(s.w.vms, n, v) {
      assert !Shows(s.p, n, v);
    }
    if a :| a in s.p.vas && s.p.vas[a].vol == v {
      assert forall b | b in s.p.vas && s.p.vas[b].vol == v :: b == a;
      assert OrphanPass(s, v) == ThenDeleted(Exec(s, AttachmentPlan(s.p, a)), v);
      if v in s.p.pvs && !s.p.vas[a].deleting {
        OrphanServed(s, v, a);
      } else {
        OrphanReleased(s, v, a);
      }
    } else {
      DeletedAfter(s, v);
    }
  }

  /* ----- A run in which the condition fails ----- */

  const V := "pn1-pvc-uid-1"
  const N := "node-a"
  const A := "va-1"
  const FAST := "fast"

  // Offered, scheduled, and provisioned although its finalizer write failed.
  const Unpinned := Empty.w.(
    claims := map[V := Claim(Some(FAST), true, true, false, false)], used := {V},
    pvs := {V}, offered := {FAST}, hostPVCs := {V}, vms := map[N := Machine([], [], [])])

  // The claim and its node, before the syncer has looked.
  lemma ScheduledClaim() returns (sched: seq<Step>, states: seq<Sys>, s: Sys)
    ensures Runs(sched, states) && |states| == |sched| + 1 && states[|sched|] == s && s.p == NoView
    ensures s.w == Unpinned.(pvs := {}, hostPVCs := {})
  {
    sched, states := [], [Empty];
    sched, states, s := Extend(sched, states, Guest(ClaimCreate(V, Some(FAST), true)));
    sched, states, s := Extend(sched, states, Guest(ClaimSchedule(V)));
    sched, states, s := Extend(sched, states, Host(Offer(FAST)));
    sched, states, s := Extend(sched, states, Host(VmCreate(N, [])));
    assert s.w == Unpinned.(pvs := {}, hostPVCs := {});
  }

  lemma ProvisionedUnpinned() returns (sched: seq<Step>, states: seq<Sys>)
    ensures Runs(sched, states) && |states| == |sched| + 1 && states[|sched|] == Sys(Unpinned, NoView)
  {
    hide Runs, Clear, Seen, Shows;
    var s: Sys;
    sched, states, s := ScheduledClaim();
    sched, states, s := GatherRun(sched, states);
    assert Provisionable(s.p, V);
    sched, states, s := Extend(sched, states, Syncer(PinClaimFails(V)));
    sched, states, s := Extend(sched, states, Syncer(CreateHost(V)));
    sched, states, s := Extend(sched, states, Syncer(CreatePV(V)));
    sched, states, s := Extend(sched, states, List(EndPass));
    assert s.w == Unpinned;
  }

  // The pod attaches; then the unpinned claim is deleted and gone at once.
  lemma ClaimGone(sched: seq<Step>, states: seq<Sys>) returns (sched': seq<Step>, states': seq<Sys>, s: Sys)
    requires Runs(sched, states) && states[|sched|] == Sys(Unpinned, NoView)
    ensures Runs(sched', states') && |states'| == |sched'| + 1 && states'[|sched'|] == s && s.p == NoView
    ensures s.w == Unpinned.(claims := map[], vas := map[A := Attachment(V, N, false, false, Blank)])
  {
    sched', states', s := Extend(sched, states, Guest(VaCreate(A, V, N)));
    sched', states', s := Extend(sched', states', Guest(ClaimDelete(V)));
    sched', states', s := Extend(sched', states', Guest(ClaimVanish(V)));
    assert s.w.claims == map[];
  }

  // The next pass plugs the volume in.
  lemma PluggedIn() returns (sched: seq<Step>, states: seq<Sys>)
    ensures Runs(sched, states) && |states| == |sched| + 1
    ensures var s := states[|sched|];
            && s.p.stage == RUNNING && Orphan(s.p, V) && Clear(s.p, V) && V in s.w.hostPVCs && Carried(s.w.vms, N, V)
  {
    hide Runs, Provisionable, TeardownReady, TeardownDone;
    var s: Sys;
    sched, states := ProvisionedUnpinned();
    sched, states, s := ClaimGone(sched, states);
    sched, states, s := GatherRun(sched, states);
    sched, states, s := Extend(sched, states, Syncer(PinVa(A)));
    sched, states, s := Extend(sched, states, Syncer(AddVolume(A)));
    AddedIsCarried(Machine([], [], []), NameFor(V), V);
    assert s.w.vms[N] == Machine([], [Add(NameFor(V), V)], []);
  }

  /** The protection is only as good as the finalizer writes: after one that fails, some run deletes
      the disk of a claim that vanished while the same pass plugs it into a VM. */
  lemma FailedPinUnsafe() returns (sched: seq<Step>, states: seq<Sys>)
    ensures Runs(sched, states)
    ensures var w := states[|sched|].w;
            V in w.deleted && Carried(w.vms, N, V)
  {
    hide Runs, Carried;
    var s: Sys;
    sched, states := PluggedIn();
    sched, states, s := Extend(sched, states, List(StartPrune));
    assert Clear(s.p, V);
    sched, states, s := Extend(sched, states, Syncer(DeleteHost(V)));
  }
}
