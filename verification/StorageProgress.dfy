/** A deleting attachment is let go of in the end: under a KubeVirt that does not put off its work
    forever, and passes that keep coming to an end without problems, its volume leaves the VM and our
    finalizer leaves the attachment, so that the next node can have the disk. */
module StorageProgress {
  import opened Hotplug
  import opened StorageMachine
  import opened StorageCore
  import opened StoragePlan
  import opened KubeVirtProgress

  // The attachment is there, going, and holds our finalizer.
  predicate Held(s: Sys, a: string, va: Attachment) {
    a in s.w.vas && s.w.vas[a] == va && va.deleting && va.pinned
  }

  predicate Released(s: Sys, a: string) {
    a !in s.w.vas || !s.w.vas[a].pinned
  }

  // The pass, if it has listed attachments, has seen this one going, and no other of its volume.
  ghost predicate Fresh(s: Sys, a: string, va: Attachment) {
    s.p.stage >= GOT_VAS ==>
      && a in s.p.vas && s.p.vas[a] == va
      && forall b | b in s.p.vas && s.p.vas[b].vol == va.vol :: b == a
  }

  function NameOf(va: Attachment): VolumeName {
    NameFor(va.vol)
  }

  // What KubeVirt has still to do for the volume on the attachment's node.
  function Load(s: Sys, va: Attachment): nat {
    if va.node in s.w.vms then Weight(s.w.vms[va.node], {NameOf(va)}) else 0
  }

  ghost predicate Busy(s: Sys, va: Attachment) {
    va.node in s.w.vms && exists k :: Effective(s.w.vms[va.node], k, {NameOf(va)})
  }

  predicate Plugged(s: Sys, va: Attachment) {
    va.node in s.w.vms && InSpec(s.w.vms[va.node].spec, NameOf(va))
  }

  /* ----- One step ----- */

  // While our finalizer is on it, an attachment that is going stays as it is.
  lemma HeldStep(s: Sys, t: Step, a: string, va: Attachment)
    requires Held(s, a, va) && Enabled(s, t)
    ensures Held(Do(s, t), a, va) || Released(Do(s, t), a)
  {
    hide KvDo, TeardownReady, TeardownDone;
  }

  lemma FreshStep(s: Sys, t: Step, a: string, va: Attachment)
    requires Held(s, a, va) && Fresh(s, a, va) && OneVaPerVolume(s.w.vas) && Enabled(s, t)
    ensures Fresh(Do(s, t), a, va)
  {
    hide KvDo, TeardownReady, TeardownDone, FromMachine, WithStatus;
    if t.Syncer? { FreshCall(s, t.c, a, va); }
  }

  lemma FreshCall(s: Sys, c: Call, a: string, va: Attachment)
    requires Held(s, a, va) && Fresh(s, a, va) && CallEnabled(s.w, s.p, c)
    ensures s.p.stage >= GOT_VAS ==>
              var p := CallView(s.p, c);
              && a in p.vas && p.vas[a] == va
              && forall b | b in p.vas && p.vas[b].vol == va.vol :: b == a
  {
  }

  // Asking a VM to let go of something, or for some other volume, is no more work for this one.
  lemma AskedWeighsNothing(m: Machine, r: Request, x: VolumeName)
    requires r.Remove? || r.name != x
    ensures var m' := m.(requests := m.requests + [r]);
            Weight(m', {x}) == Weight(m, {x}) && forall k | Effective(m, k, {x}) :: Effective(m', k, {x})
  {
    AddWeightAppend(m.requests, r, {x});
  }

  // The VM's machine takes no step but one of KubeVirt, or a request that adds nothing of ours.
  datatype Change = Same | Worked(k: KvStep) | Gone | Made | AskedFor(r: Request)

  lemma ChangeOf(s: Sys, t: Step, a: string, va: Attachment) returns (c: Change)
    requires Held(s, a, va) && Fresh(s, a, va) && Enabled(s, t)
    ensures var n, s' := va.node, Do(s, t);
            match c
            case Same => (n in s.w.vms <==> n in s'.w.vms) && (n in s.w.vms ==> s'.w.vms[n] == s.w.vms[n])
            case Worked(k) => t == Kube(n, k) && n in s.w.vms && n in s'.w.vms && KvEnabled(s.w.vms[n], k) && s'.w.vms[n] == KvDo(s.w.vms[n], k)
            case Gone => n in s.w.vms && n !in s'.w.vms
            case Made => n !in s.w.vms && n in s'.w.vms && s'.w.vms[n] == Machine(s'.w.vms[n].spec, [], [])
                         && forall i | 0 <= i < |s'.w.vms[n].spec| :: !s'.w.vms[n].spec[i].name.Csi?
            case AskedFor(r) => n in s.w.vms && n in s'.w.vms && s'.w.vms[n] == s.w.vms[n].(requests := s.w.vms[n].requests + [r])
                                && (r.Remove? || r.name != NameOf(va))
  {
    hide KvDo, KvEnabled, TeardownReady, TeardownDone, FromMachine, WithStatus;
    var n := va.node;
    match t {
      case Kube(m, k) => c := if m == n then Worked(k) else Same;
      case Host(h) => c := if h.VmCreate? && h.n == n then Made else if h.VmDelete? && h.n == n then Gone else Same;
      case Syncer(call) => c := AskedBy(s, call, a, va);
      case _ => c := Same;
    }
  }

  lemma AskedBy(s: Sys, call: Call, a: string, va: Attachment) returns (c: Change)
    requires Held(s, a, va) && Fresh(s, a, va) && CallEnabled(s.w, s.p, call)
    ensures var n, vms := va.node, CallWorld(s.w, s.p, call).vms;
            && (c == Same || c.AskedFor?)
            && (c == Same ==> (n in s.w.vms <==> n in vms) && (n in s.w.vms ==> vms[n] == s.w.vms[n]))
            && (c.AskedFor? ==>
                  && n in s.w.vms && n in vms && vms[n] == s.w.vms[n].(requests := s.w.vms[n].requests + [c.r])
                  && (c.r.Remove? || c.r.name != NameOf(va)))
  {
    hide TeardownReady, TeardownDone;
    var n := va.node;
    match call {
      case AddVolume(b) =>
        c := if s.p.vas[b].node == n then AskedFor(Add(NameFor(s.p.vas[b].vol), s.p.vas[b].vol)) else Same;
        assert s.p.vas[b].vol != va.vol;
      case RemoveForVa(b) => c := if s.p.vas[b].node == n then AskedFor(Remove(NameFor(s.p.vas[b].vol))) else Same;
      case Unplug(v, m) => c := if m == n then AskedFor(Remove(NameFor(v))) else Same;
      case Sweep(m, v) => c := if m == n then AskedFor(Remove(NameFor(v))) else Same;
      case _ => c := Same;
    }
  }

  lemma NewWeighsNothing(m: Machine, x: VolumeName)
    requires m == Machine(m.spec, [], []) && x.Csi? && forall i | 0 <= i < |m.spec| :: !m.spec[i].name.Csi?
    ensures Weight(m, {x}) == 0 && !InSpec(m.spec, x)
  {
    assert forall i | 0 <= i < |m.spec| :: m.spec[i].name !in {x};
    PlainSpecWeighsNothing(m.spec, {x});
  }

  lemma Working(m: Machine, t: KvStep, x: VolumeName)
    requires KvEnabled(m, t)
    ensures Weight(KvDo(m, t), {x}) <= Weight(m, {x})
    ensures Effective(m, t, {x}) ==> Weight(KvDo(m, t), {x}) < Weight(m, {x})
    ensures (exists k :: Effective(m, k, {x})) && Weight(KvDo(m, t), {x}) == Weight(m, {x}) ==> exists k :: Effective(KvDo(m, t), k, {x})
  {
    hide Weight, KvDo, Effective;
    StepWeight(m, t, {x});
    if Weight(KvDo(m, t), {x}) == Weight(m, {x}) {
      if k :| Effective(m, k, {x}) {
        var k' := BusyStaysBusy(m, t, k, {x});
      }
    }
  }

  lemma EffectiveWeighs(m: Machine, t: KvStep, x: VolumeName)
    requires Effective(m, t, {x})
    ensures Weight(m, {x}) > 0
  {
    StepWeight(m, t, {x});
  }

  /** Nobody's step adds to what KubeVirt has to do for the volume; and one that takes nothing away leaves
      it as busy with it as it was. */
  lemma LoadStep(s: Sys, t: Step, a: string, va: Attachment)
    requires Held(s, a, va) && Fresh(s, a, va) && Enabled(s, t)
    ensures Load(Do(s, t), va) <= Load(s, va)
    ensures Busy(s, va) && Load(Do(s, t), va) == Load(s, va) ==> Busy(Do(s, t), va)
  {
    hide Effective, Weight, KvDo, KvEnabled, Enabled, Do, Held, Fresh;
    var c := ChangeOf(s, t, a, va);
    var x := NameOf(va);
    match c {
      case Same =>
      case Worked(k) => Working(s.w.vms[va.node], k, x);
      case Gone =>
        if k :| va.node in s.w.vms && Effective(s.w.vms[va.node], k, {x}) { EffectiveWeighs(s.w.vms[va.node], k, x); }
      case Made => NewWeighsNothing(Do(s, t).w.vms[va.node], x);
      case AskedFor(r) => AskedWeighsNothing(s.w.vms[va.node], r, x);
    }
  }

  // A step of KubeVirt on the volume is less work left.
  lemma WorkLowers(s: Sys, t: Step, va: Attachment)
    requires Enabled(s, t) && t.Kube? && t.n == va.node && Effective(s.w.vms[t.n], t.k, {NameOf(va)})
    ensures Load(Do(s, t), va) < Load(s, va)
  {
    hide Effective, Weight, KvDo;
    Working(s.w.vms[t.n], t.k, NameOf(va));
  }

  /* ----- A pass while KubeVirt has nothing to do ----- */

  // The listings agree with the VM.
  predicate Mirrors(s: Sys, va: Attachment) {
    s.p.stage >= GOT_VMS && va.node in s.p.snap ==>
      var vols := s.p.snap[va.node];
      && (NameOf(va) in vols <==> Plugged(s, va))
      && (NameOf(va) in vols ==> vols[NameOf(va)].inSpec)
  }

  lemma IdleIsSettled(m: Machine, x: VolumeName)
    requires forall k :: !Effective(m, k, {x})
    ensures !Queued(m.requests, x) && (Reported(m.status, x) <==> InSpec(m.spec, x))
  {
    if i :| 0 <= i < |m.requests| && m.requests[i].Add? && m.requests[i].name == x {
      assert Effective(m, Apply(i), {x});
    }
    if InSpec(m.spec, x) && !Reported(m.status, x) {
      assert Effective(m, Observe(x, ""), {x});
    }
    if !InSpec(m.spec, x) && Reported(m.status, x) {
      assert Effective(m, Drop(x), {x});
    }
  }

  lemma ListingMirrors(s: Sys, t: Listing, va: Attachment)
    requires ListEnabled(s.p, t) && Mirrors(s, va) && !Busy(s, va)
    ensures Mirrors(s.(p := ListDo(s.w, s.p, t)), va)
  {
    hide Effective, FromMachine, WithStatus;
    if va.node in s.w.vms && (t.ListVMs? || t.ListVMIs?) {
      var m := s.w.vms[va.node];
      assert forall k :: !Effective(m, k, {NameOf(va)});
      IdleIsSettled(m, NameOf(va));
      if t.ListVMs? {
        MergeMeaning(m.spec, m.requests, [], NameOf(va));
        NoStatus(FromMachine(m.spec, m.requests));
      } else if va.node in s.p.snap {
        StatusMerged(s.p.snap[va.node], m.status, NameOf(va));
      }
    }
  }

  lemma NoStatus(vols: Volumes)
    ensures WithStatus(vols, []) == vols
  {
  }

  // What is in the spec does not change without work being done.
  lemma PluggedStays(s: Sys, t: Step, a: string, va: Attachment)
    requires Held(s, a, va) && Fresh(s, a, va) && Enabled(s, t) && Load(Do(s, t), va) == Load(s, va)
    ensures Plugged(Do(s, t), va) <==> Plugged(s, va)
  {
    hide Effective, Weight, KvDo, KvEnabled, Enabled, Do, Held, Fresh;
    var c := ChangeOf(s, t, a, va);
    var x := NameOf(va);
    match c {
      case Same =>
      case Worked(k) =>
        StepWeight(s.w.vms[va.node], k, {x});
        IneffectiveKeeps(s.w.vms[va.node], k, {x});
      case Gone => if Plugged(s, va) { PluggedWeighs(s.w.vms[va.node], x); }
      case Made => NewWeighsNothing(Do(s, t).w.vms[va.node], x);
      case AskedFor(r) =>
    }
  }

  lemma PluggedWeighs(m: Machine, x: VolumeName)
    requires InSpec(m.spec, x)
    ensures Weight(m, {x}) > 0
  {
    InSpecWeighs(m.spec, m.status, x, {x});
  }

  lemma SnapKept(s: Sys, t: Step)
    requires Enabled(s, t)
    ensures t.List? || (Do(s, t).p.stage == s.p.stage && Do(s, t).p.snap == s.p.snap)
  {
    hide KvDo, TeardownReady, TeardownDone, Lands;
  }

  lemma QuietStep(s: Sys, t: Step, a: string, va: Attachment)
    requires Held(s, a, va) && Fresh(s, a, va) && Enabled(s, t)
    requires Mirrors(s, va) && !Busy(s, va) && Load(Do(s, t), va) == Load(s, va)
    ensures Mirrors(Do(s, t), va)
  {
    if t.List? {
      ListingMirrors(s, t.l, va);
    } else {
      hide Busy, Load, Plugged, Do, Enabled, Held, Fresh;
      SnapKept(s, t);
      PluggedStays(s, t, a, va);
    }
  }

  // A removal asked of a VM that has the volume in its spec is work.
  lemma AskingIsBusy(s: Sys, a: string, va: Attachment)
    requires Held(s, a, va) && Fresh(s, a, va) && Enabled(s, Syncer(RemoveForVa(a))) && Plugged(s, va)
    ensures Busy(Do(s, Syncer(RemoveForVa(a))), va)
  {
    var m := Do(s, Syncer(RemoveForVa(a))).w.vms[va.node];
    assert Effective(m, Apply(|s.w.vms[va.node].requests|), {NameOf(va)});
  }

  /* ----- Over time ----- */

  type Timeline = nat -> Sys
  type Schedule = nat -> Step

  ghost predicate StepAt(at: Timeline, moves: Schedule, i: nat) {
    Enabled(at(i), moves(i)) && at(i + 1) == Do(at(i), moves(i))
  }

  ghost predicate Trace(at: Timeline, moves: Schedule) {
    at(0) == Empty && forall i: nat :: StepAt(at, moves, i)
  }

  predicate HeldAt(at: Timeline, i: nat, a: string, va: Attachment) {
    Held(at(i), a, va)
  }

  ghost predicate HeldFrom(at: Timeline, i: nat, a: string, va: Attachment) {
    forall j: nat :: j >= i ==> HeldAt(at, j, a, va)
  }

  ghost predicate BusyAt(at: Timeline, i: nat, va: Attachment) {
    Busy(at(i), va)
  }

  ghost predicate AlwaysBusy(at: Timeline, i: nat, va: Attachment) {
    forall j: nat :: j >= i ==> BusyAt(at, j, va)
  }

  // KubeVirt does some of what it has to do for the volume.
  ghost predicate WorksAt(at: Timeline, moves: Schedule, i: nat, va: Attachment) {
    moves(i).Kube? && moves(i).n == va.node && va.node in at(i).w.vms
    && Effective(at(i).w.vms[va.node], moves(i).k, {NameOf(va)})
  }

  ghost predicate WorksAfter(at: Timeline, moves: Schedule, i: nat, va: Attachment) {
    exists j: nat :: j >= i && WorksAt(at, moves, j, va)
  }

  predicate Applies(at: Timeline, i: nat) {
    at(i).p.stage == RUNNING
  }

  // The pass that is applying at moment k issued the call before.
  ghost predicate IssuedIn(at: Timeline, moves: Schedule, k: nat, c: Call) {
    exists j: nat :: j < k && moves(j) == Syncer(c) && forall l: nat | j <= l <= k :: Applies(at, l)
  }

  // A pass goes on to prune, and has done for the attachment what its listings call for: as a pass
  // without problems does.
  ghost predicate ServesAt(at: Timeline, moves: Schedule, k: nat, a: string) {
    && moves(k) == List(StartPrune)
    && (a in at(k).p.vas ==> forall c | Called(at(k).p, at(k).p.pvs, a, c) :: IssuedIn(at, moves, k, c))
  }

  ghost predicate ServesAfter(at: Timeline, moves: Schedule, i: nat, a: string) {
    exists k: nat :: k >= i && ServesAt(at, moves, k, a)
  }

  // As long as the attachment is held such passes keep coming, and KubeVirt does not put off forever what
  // it could do all along.
  ghost predicate Fair(at: Timeline, moves: Schedule, a: string, va: Attachment) {
    && (forall i: nat :: HeldAt(at, i, a, va) ==> ServesAfter(at, moves, i, a))
    && (forall i: nat :: AlwaysBusy(at, i, va) ==> WorksAfter(at, moves, i, va))
  }

  lemma {:induction false} CoreAlways(at: Timeline, moves: Schedule, i: nat)
    requires Trace(at, moves)
    ensures Core(at(i))
  {
    hide Core;
    if i == 0 {
      CoreInit();
    } else {
      CoreAlways(at, moves, i - 1);
      assert StepAt(at, moves, i - 1);
      CoreStep(at(i - 1), moves(i - 1));
    }
  }

  lemma FreshNext(at: Timeline, moves: Schedule, i: nat, a: string, va: Attachment)
    requires Trace(at, moves) && HeldAt(at, i, a, va) && Fresh(at(i), a, va)
    ensures Fresh(at(i + 1), a, va)
  {
    hide Fresh, Held, Enabled, Do, CoreListed;
    CoreAlways(at, moves, i);
    assert StepAt(at, moves, i);
    FreshStep(at(i), moves(i), a, va);
  }

  lemma {:induction false} FreshUpTo(at: Timeline, moves: Schedule, i: nat, k: nat, a: string, va: Attachment)
    requires Trace(at, moves) && HeldFrom(at, i, a, va) && Fresh(at(i), a, va) && k >= i
    ensures Fresh(at(k), a, va)
    decreases k - i
  {
    hide Fresh, Held;
    if i < k {
      assert HeldAt(at, i, a, va);
      FreshNext(at, moves, i, a, va);
      FreshUpTo(at, moves, i + 1, k, a, va);
    }
  }

  lemma LoadNext(at: Timeline, moves: Schedule, i: nat, a: string, va: Attachment)
    requires Trace(at, moves) && HeldAt(at, i, a, va) && Fresh(at(i), a, va)
    ensures Load(at(i + 1), va) <= Load(at(i), va)
    ensures BusyAt(at, i, va) && Load(at(i + 1), va) == Load(at(i), va) ==> BusyAt(at, i + 1, va)
    ensures WorksAt(at, moves, i, va) ==> Load(at(i + 1), va) < Load(at(i), va)
  {
    hide Fresh, Held, Enabled, Do, Load, Busy, Effective;
    assert StepAt(at, moves, i);
    LoadStep(at(i), moves(i), a, va);
    if WorksAt(at, moves, i, va) { WorkLowers(at(i), moves(i), va); }
  }

  lemma {:induction false} LoadUpTo(at: Timeline, moves: Schedule, i: nat, k: nat, a: string, va: Attachment)
    requires Trace(at, moves) && HeldFrom(at, i, a, va) && Fresh(at(i), a, va) && k >= i
    ensures Load(at(k), va) <= Load(at(i), va)
    decreases k - i
  {
    hide Fresh, Held, Load;
    if i < k {
      assert HeldAt(at, i, a, va);
      FreshNext(at, moves, i, a, va);
      LoadNext(at, moves, i, a, va);
      LoadUpTo(at, moves, i + 1, k, a, va);
    }
  }

  lemma {:induction false} LighterBefore(at: Timeline, moves: Schedule, i: nat, k: nat, a: string, va: Attachment)
    requires Trace(at, moves) && HeldFrom(at, i, a, va) && Fresh(at(i), a, va)
    requires BusyAt(at, i, va) && k >= i && !BusyAt(at, k, va)
    ensures Load(at(k), va) < Load(at(i), va)
    decreases k - i
  {
    hide Fresh, Held, Load, Busy;
    assert HeldAt(at, i, a, va);
    FreshNext(at, moves, i, a, va);
    LoadNext(at, moves, i, a, va);
    if Load(at(i + 1), va) < Load(at(i), va) {
      LoadUpTo(at, moves, i + 1, k, a, va);
    } else {
      LighterBefore(at, moves, i + 1, k, a, va);
    }
  }

  // From a moment when KubeVirt is busy with the volume, it has less to do some time.
  lemma LighterLater(at: Timeline, moves: Schedule, i: nat, a: string, va: Attachment) returns (k: nat)
    requires Trace(at, moves) && Fair(at, moves, a, va) && HeldFrom(at, i, a, va) && Fresh(at(i), a, va) && BusyAt(at, i, va)
    ensures k >= i && Load(at(k), va) < Load(at(i), va)
  {
    hide Fresh, Held, Load, Busy, Effective;
    if AlwaysBusy(at, i, va) {
      assert WorksAfter(at, moves, i, va);
      var j: nat :| j >= i && WorksAt(at, moves, j, va);
      LoadUpTo(at, moves, i, j, a, va);
      FreshUpTo(at, moves, i, j, a, va);
      assert HeldAt(at, j, a, va);
      LoadNext(at, moves, j, a, va);
      k := j + 1;
    } else {
      k :| k >= i && !BusyAt(at, k, va);
      LighterBefore(at, moves, i, k, a, va);
    }
  }

  // From one moment to another: KubeVirt was busy with the volume, or got something done for it.
  ghost predicate Stirred(at: Timeline, i: nat, k: nat, va: Attachment) {
    Load(at(k), va) < Load(at(i), va) || exists j: nat :: i <= j <= k && BusyAt(at, j, va)
  }

  lemma {:induction false} StirredOrQuiet(at: Timeline, moves: Schedule, i: nat, k: nat, a: string, va: Attachment)
    requires Trace(at, moves) && HeldFrom(at, i, a, va) && at(i).p.stage == IDLE && k >= i
    ensures Stirred(at, i, k, va) || Mirrors(at(k), va)
    decreases k - i
  {
    hide Held, Load, Busy, Enabled, Do;
    if k > i {
      FreshUpTo(at, moves, i, k - 1, a, va);
      LoadUpTo(at, moves, i, k - 1, a, va);
      assert HeldAt(at, k - 1, a, va);
      LoadNext(at, moves, k - 1, a, va);
      assert StepAt(at, moves, k - 1);
      if !Stirred(at, i, k, va) {
        assert !BusyAt(at, k - 1, va);
        StirredOrQuiet(at, moves, i, k - 1, a, va);
        QuietStep(at(k - 1), moves(k - 1), a, va);
      }
    }
  }

  // A call of this pass, and when it was made.
  lemma MadeWithin(at: Timeline, moves: Schedule, i: nat, k: nat, c: Call) returns (j: nat)
    requires Trace(at, moves) && at(i).p.stage == IDLE && k >= i && IssuedIn(at, moves, k, c)
    ensures i < j < k && moves(j) == Syncer(c) && Enabled(at(j), Syncer(c)) && at(j + 1) == Do(at(j), Syncer(c))
  {
    hide Enabled, Do;
    j :| j < k && moves(j) == Syncer(c) && forall l: nat | j <= l <= k :: Applies(at, l);
    assert j <= i ==> Applies(at, i);
    assert StepAt(at, moves, j);
  }

  // A release ends it.
  lemma ReleaseEnds(s: Sys, c: Call, a: string, va: Attachment)
    requires (c == UnpinVa(a) || c == UnpinZombie(a)) && Enabled(s, Syncer(c))
    ensures !Held(Do(s, Syncer(c)), a, va)
  {
  }

  // A pass with a fresh view that has done all it should, and the attachment still held: it had asked for
  // the volume's removal, and KubeVirt was busy with that.
  lemma ServedIsStirred(at: Timeline, moves: Schedule, i: nat, k: nat, a: string, va: Attachment)
    requires Trace(at, moves) && HeldFrom(at, i, a, va) && at(i).p.stage == IDLE && k >= i && ServesAt(at, moves, k, a)
    ensures Stirred(at, i, k, va)
  {
    hide Busy, Load, Do, Enabled, Trace;
    StirredOrQuiet(at, moves, i, k, a, va);
    if Mirrors(at(k), va) && Load(at(k), va) >= Load(at(i), va) {
      assert Fresh(at(i), a, va);
      FreshUpTo(at, moves, i, k, a, va);
      StartsPruning(at, moves, k);
      assert HeldAt(at, k, a, va);
      var c := WhatIsCalled(at(k), a, va);
      assert IssuedIn(at, moves, k, c);
      var j := MadeWithin(at, moves, i, k, c);
      assert HeldAt(at, j, a, va) && HeldAt(at, j + 1, a, va);
      if c == RemoveForVa(a) {
        StillPlugged(at, moves, i, j, k, a, va);
        FreshUpTo(at, moves, i, j, a, va);
        AskingIsBusy(at(j), a, va);
        assert BusyAt(at, j + 1, va);
      } else {
        ReleaseEnds(at(j), c, a, va);
      }
    }
  }

  lemma StartsPruning(at: Timeline, moves: Schedule, k: nat)
    requires Trace(at, moves) && moves(k) == List(StartPrune)
    ensures at(k).p.stage == RUNNING && at(k + 1).p.stage == PRUNING
  {
    assert StepAt(at, moves, k);
  }

  // The listings always call for something while the attachment is held and KubeVirt is at rest.
  lemma WhatIsCalled(s: Sys, a: string, va: Attachment) returns (c: Call)
    requires s.p.stage == RUNNING && Held(s, a, va) && Fresh(s, a, va) && Mirrors(s, va)
    ensures a in s.p.vas && Called(s.p, s.p.pvs, a, c)
    ensures c in [UnpinVa(a), UnpinZombie(a), RemoveForVa(a)] && (c == RemoveForVa(a) ==> Plugged(s, va))
  {
    c := if va.vol !in s.p.pvs then UnpinZombie(a)
         else if va.node in s.p.snap && NameOf(va) in s.p.snap[va.node] then RemoveForVa(a)
         else UnpinVa(a);
  }

  // Without work done, what is plugged at the end was plugged before.
  lemma {:induction false} StillPlugged(at: Timeline, moves: Schedule, i: nat, j: nat, k: nat, a: string, va: Attachment)
    requires Trace(at, moves) && HeldFrom(at, i, a, va) && Fresh(at(i), a, va) && i <= j <= k
    requires !(Load(at(k), va) < Load(at(i), va)) && Plugged(at(k), va)
    ensures Plugged(at(j), va)
    decreases k - j
  {
    hide Fresh, Held, Load, Plugged, Enabled, Do;
    if j < k {
      StillPlugged(at, moves, i, j + 1, k, a, va);
      LoadUpTo(at, moves, i, j, a, va);
      FreshUpTo(at, moves, i, j, a, va);
      FreshUpTo(at, moves, i, j + 1, a, va);
      assert HeldAt(at, j, a, va);
      LoadNext(at, moves, j, a, va);
      LoadUpTo(at, moves, j + 1, k, a, va);
      assert StepAt(at, moves, j);
      PluggedStays(at(j), moves(j), a, va);
    }
  }

  // Between two passes the syncer is idle.
  lemma {:induction false} IdleBetween(at: Timeline, moves: Schedule, i: nat, k: nat) returns (m: nat)
    requires Trace(at, moves) && i < k && at(i).p.stage == PRUNING && at(k).p.stage == RUNNING
    ensures i <= m <= k && at(m).p.stage == IDLE
    decreases k - i
  {
    assert StepAt(at, moves, i);
    PruningEnds(at(i), moves(i));
    if at(i + 1).p.stage == IDLE {
      m := i + 1;
    } else {
      m := IdleBetween(at, moves, i + 1, k);
    }
  }

  lemma PruningEnds(s: Sys, t: Step)
    requires Enabled(s, t) && s.p.stage == PRUNING
    ensures Do(s, t).p.stage in [PRUNING, IDLE]
  {
    hide KvDo, TeardownReady, TeardownDone, Lands;
  }

  // A pass begins some time.
  lemma IdleLater(at: Timeline, moves: Schedule, i: nat, a: string, va: Attachment) returns (m: nat)
    requires Trace(at, moves) && Fair(at, moves, a, va) && HeldFrom(at, i, a, va)
    ensures m >= i && at(m).p.stage == IDLE
  {
    hide Held, Enabled, Do, Trace;
    assert HeldAt(at, i, a, va);
    assert ServesAfter(at, moves, i, a);
    var k: nat :| k >= i && ServesAt(at, moves, k, a);
    StartsPruning(at, moves, k);
    assert HeldAt(at, k + 1, a, va);
    assert ServesAfter(at, moves, k + 1, a);
    var l: nat :| l >= k + 1 && ServesAt(at, moves, l, a);
    StartsPruning(at, moves, l);
    m := IdleBetween(at, moves, k + 1, l);
  }

  lemma {:induction false} NotForever(at: Timeline, moves: Schedule, i: nat, a: string, va: Attachment)
    requires Trace(at, moves) && Fair(at, moves, a, va) && HeldFrom(at, i, a, va) && at(i).p.stage == IDLE
    ensures false
    decreases Load(at(i), va)
  {
    hide Held, Load, Busy, Enabled, Do, Trace;
    assert HeldAt(at, i, a, va);
    assert ServesAfter(at, moves, i, a);
    var k: nat :| k >= i && ServesAt(at, moves, k, a);
    ServedIsStirred(at, moves, i, k, a, va);
    var l := k;
    if j: nat :| i <= j <= k && BusyAt(at, j, va) {
      FreshUpTo(at, moves, i, j, a, va);
      LoadUpTo(at, moves, i, j, a, va);
      l := LighterLater(at, moves, j, a, va);
    }
    FreshUpTo(at, moves, i, l, a, va);
    var m := IdleLater(at, moves, l, a, va);
    LoadUpTo(at, moves, l, m, a, va);
    NotForever(at, moves, m, a, va);
  }

  lemma {:induction false} HeldUntil(at: Timeline, moves: Schedule, i: nat, k: nat, a: string, va: Attachment)
    requires Trace(at, moves) && HeldAt(at, i, a, va) && k >= i
    requires forall j | i <= j <= k :: !Released(at(j), a)
    ensures HeldAt(at, k, a, va)
    decreases k - i
  {
    hide Enabled, Do, Held, Released;
    if i < k {
      assert StepAt(at, moves, i);
      HeldStep(at(i), moves(i), a, va);
      assert !Released(at(i + 1), a);
      HeldUntil(at, moves, i + 1, k, a, va);
    }
  }

  /** A deleting attachment is let go of: whatever the VM held of its volume and whatever was on its way
      to it, whatever others do, and however the steps interleave, some pass takes our finalizer off. With
      `ReleasedIsOff` of module StorageCore: by then the volume is off every VM. */
  lemma DeletingIsReleased(at: Timeline, moves: Schedule, i: nat, a: string, va: Attachment) returns (k: nat)
    requires Trace(at, moves) && Fair(at, moves, a, va)
    requires a in at(i).w.vas && at(i).w.vas[a] == va && va.deleting && va.pinned
    ensures k >= i && (a !in at(k).w.vas || !at(k).w.vas[a].pinned)
  {
    hide Trace;
    if forall j: nat | j >= i :: !Released(at(j), a) {
      forall j: nat | j >= i ensures HeldAt(at, j, a, va) { HeldUntil(at, moves, i, j, a, va); }
      var m := IdleLater(at, moves, i, a, va);
      NotForever(at, moves, m, a, va);
    }
    k :| k >= i && Released(at(k), a);
  }
}
