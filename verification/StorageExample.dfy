/** A volume's way off a VM, from beginning to end: a claim is provisioned and plugged in, the attachment
    is deleted, one pass has the volume unplugged, KubeVirt lets go, and the next releases the attachment.
    It goes on as a timeline of the kind the theorem of module StorageProgress is about. */
module StorageExample {
  import opened Hotplug
  import opened StorageMachine
  import opened StorageGuard
  import opened StorageOrphans
  import opened StoragePlan
  import opened StorageProgress
  import opened KubeVirtProgress
  import opened Wrappers

  // A run, and then nothing: the end of a pass that is not under way changes nothing.
  function Continued(states: seq<Sys>): Timeline
    requires states != []
  {
    (i: nat) => if i < |states| then states[i] else states[|states| - 1]
  }

  function Resting(sched: seq<Step>): Schedule {
    (i: nat) => if i < |sched| then sched[i] else List(EndPass)
  }

  lemma RestingTraces(sched: seq<Step>, states: seq<Sys>)
    requires Runs(sched, states) && states[|sched|].p == NoView
    ensures |states| == |sched| + 1 && Trace(Continued(states), Resting(sched))
  {
    hide KvDo, TeardownReady, TeardownDone, Lands;
    forall i: nat ensures StepAt(Continued(states), Resting(sched), i) {
      if i >= |sched| { assert states[|states| - 1].(p := NoView) == states[|states| - 1]; }
    }
  }

  /** A run in which the last pass did for the attachment all that it called for, and after which it is
      held no more and KubeVirt has nothing left to do for its volume, goes on as a fair timeline. */
  lemma ReleasedIsFair(sched: seq<Step>, states: seq<Sys>, k: nat, a: string, va: Attachment)
    requires Runs(sched, states) && |states| == |sched| + 1 && states[|sched|].p == NoView && k < |sched|
    requires ServesAt(Continued(states), Resting(sched), k, a)
    requires (forall i | k < i < |states| :: !Held(states[i], a, va)) && !Busy(states[|sched|], va)
    ensures Trace(Continued(states), Resting(sched)) && Fair(Continued(states), Resting(sched), a, va)
  {
    hide Runs, Busy, Held, ServesAt, Trace;
    RestingTraces(sched, states);
    var at, moves := Continued(states), Resting(sched);
    forall i: nat ensures HeldAt(at, i, a, va) ==> i <= k {
      var j := if i < |states| then i else |sched|;
      assert at(i) == states[j] && (i > k ==> k < j);
    }
    forall i: nat | HeldAt(at, i, a, va) ensures ServesAfter(at, moves, i, a) {
      assert k >= i && ServesAt(at, moves, k, a);
    }
    forall i: nat ensures !AlwaysBusy(at, i, va) {
      var j := if i < |states| then |sched| else i;
      assert !BusyAt(at, j, va);
    }
  }

  /* ----- The run ----- */

  const Going := Attachment(V, N, true, true, Blank)

  const Provisioned := Empty.w.(
    claims := map[V := Claim(Some(FAST), true, true, false, true)], used := {V},
    pvs := {V}, offered := {FAST}, hostPVCs := {V}, vms := map[N := Machine([], [], [])])

  // The volume on its VM, and the attachment active.
  const Adding := Machine([], [Add(NameFor(V), V)], [])
  const Using := Machine([SpecVolume(NameFor(V), V)], [], [])
  const InUse := Provisioned.(vas := map[A := Going.(deleting := false)], vms := map[N := Using])

  lemma PinnedClaim() returns (sched: seq<Step>, states: seq<Sys>, s: Sys)
    ensures Runs(sched, states) && |states| == |sched| + 1 && states[|sched|] == s
    ensures s.w == Provisioned.(pvs := {}, hostPVCs := {})
    ensures s.p == Listings(Unpinned.(pvs := {}, hostPVCs := {})).(tried := {V}) && Provisionable(s.p, V)
  {
    hide Runs;
    sched, states, s := ScheduledClaim();
    sched, states, s := GatherRun(sched, states);
    assert Provisionable(s.p, V);
    sched, states, s := Extend(sched, states, Syncer(PinClaim(V)));
    assert s.w.claims == Provisioned.claims;
  }

  lemma ProvisionedClaim() returns (sched: seq<Step>, states: seq<Sys>)
    ensures Runs(sched, states) && |states| == |sched| + 1 && states[|sched|] == Sys(Provisioned, NoView)
  {
    hide Runs, Clear, Seen, Shows, Provisionable;
    var s: Sys;
    sched, states, s := PinnedClaim();
    sched, states, s := Extend(sched, states, Syncer(CreateHost(V)));
    sched, states, s := Extend(sched, states, Syncer(CreatePV(V)));
    sched, states, s := Extend(sched, states, List(EndPass));
    assert s.w == Provisioned;
  }

  lemma Attaching() returns (sched: seq<Step>, states: seq<Sys>, s: Sys)
    ensures Runs(sched, states) && |states| == |sched| + 1 && states[|sched|] == s
    ensures s.w == Provisioned.(vas := map[A := Attachment(V, N, false, false, Blank)]) && s.p == Listings(s.w)
  {
    hide Runs;
    sched, states := ProvisionedClaim();
    sched, states, s := Extend(sched, states, Guest(VaCreate(A, V, N)));
    assert s.w.vas == map[A := Attachment(V, N, false, false, Blank)];
    sched, states, s := GatherRun(sched, states);
  }

  lemma Pinned() returns (sched: seq<Step>, states: seq<Sys>, s: Sys)
    ensures Runs(sched, states) && |states| == |sched| + 1 && states[|sched|] == s
    ensures s.w == InUse.(vms := Provisioned.vms) && s.p == Listings(Provisioned).(vas := InUse.vas)
  {
    hide Runs, Clear, Provisionable, TeardownReady, TeardownDone, Orphan;
    sched, states, s := Attaching();
    sched, states, s := Extend(sched, states, Syncer(PinVa(A)));
    assert s.w.vas == InUse.vas && s.p.vas == InUse.vas;
  }

  // Pinned, and asked for.
  lemma PluggedIn() returns (sched: seq<Step>, states: seq<Sys>)
    ensures Runs(sched, states) && |states| == |sched| + 1
    ensures states[|sched|] == Sys(InUse.(vms := map[N := Adding]), NoView)
  {
    hide Runs, Clear, Provisionable, TeardownReady, TeardownDone, Orphan;
    var s: Sys;
    sched, states, s := Pinned();
    assert s.p.snap[N] == Shown(Machine([], [], [])) == map[];
    sched, states, s := Extend(sched, states, Syncer(AddVolume(A)));
    assert s.w.vms[N] == Adding && s.w.vms == map[N := Adding];
    sched, states, s := Extend(sched, states, List(EndPass));
  }

  // KubeVirt plugs it in, and the guest lets go of the attachment.
  lemma Deleting() returns (sched: seq<Step>, states: seq<Sys>)
    ensures Runs(sched, states) && |states| == |sched| + 1
    ensures states[|sched|] == Sys(InUse.(vas := map[A := Going]), NoView)
  {
    hide Runs;
    var s: Sys;
    sched, states := PluggedIn();
    sched, states, s := Extend(sched, states, Kube(N, Apply(0)));
    assert s.w.vms[N] == Using && s.w.vms == map[N := Using];
    sched, states, s := Extend(sched, states, Guest(VaDelete(A)));
    assert s.w.vas == map[A := Going];
  }

  // What the listings show of it.
  lemma ShownUsing()
    ensures var vols := Shown(Using); NameFor(V) in vols && vols[NameFor(V)].inSpec
  {
    assert Using.spec[0].name == NameFor(V);
    MergeMeaning(Using.spec, Using.requests, Using.status, NameFor(V));
  }

  const GoingOn := InUse.(vas := map[A := Going])

  // The pass that finds it in the spec, and asks for its removal.
  lemma Unplugging() returns (sched: seq<Step>, states: seq<Sys>)
    ensures Runs(sched, states) && |states| == |sched| + 1
    ensures states[|sched|] == Sys(GoingOn.(vms := map[N := Using.(requests := [Remove(NameFor(V))])]), NoView)
  {
    hide Runs, Clear, Provisionable, TeardownReady, TeardownDone, Orphan, Shown;
    var s: Sys;
    sched, states := Deleting();
    sched, states, s := GatherRun(sched, states);
    ShownUsing();
    sched, states, s := Extend(sched, states, Syncer(RemoveForVa(A)));
    assert s.w.vms[N] == Using.(requests := [Remove(NameFor(V))]);
    assert s.w.vms == map[N := Using.(requests := [Remove(NameFor(V))])];
    sched, states, s := Extend(sched, states, List(EndPass));
  }

  lemma EmptyIsIdle(s: Sys, va: Attachment)
    requires va.node in s.w.vms && s.w.vms[va.node] == Machine([], [], [])
    ensures !Busy(s, va)
  {
  }

  lemma LetGo()
    ensures KvDo(Using.(requests := [Remove(NameFor(V))]), Apply(0)) == Machine([], [], [])
  {
    var m := Using.(requests := [Remove(NameFor(V))]);
    assert m.requests[..0] + m.requests[1..] == [];
    assert m.spec[1..] == [];
    assert Without(m.spec, NameFor(V)) == Without([], NameFor(V));
  }

  // KubeVirt lets go, and the next pass sees that it has.
  lemma Unplugged() returns (sched: seq<Step>, states: seq<Sys>, s: Sys)
    ensures Runs(sched, states) && |states| == |sched| + 1 && states[|sched|] == s
    ensures s.w == GoingOn.(vms := Provisioned.vms) && s.p == Listings(s.w)
  {
    hide Runs;
    LetGo();
    hide KvDo;
    sched, states := Unplugging();
    sched, states, s := Extend(sched, states, Kube(N, Apply(0)));
    assert s.w.vms[N] == Machine([], [], []) && s.w.vms == Provisioned.vms;
    sched, states, s := GatherRun(sched, states);
  }

  const Off := GoingOn.(vms := Provisioned.vms)
  const Free := Off.(vas := map[A := Going.(pinned := false)])

  // It takes the finalizer off,
  lemma Freed() returns (sched: seq<Step>, states: seq<Sys>)
    ensures Runs(sched, states) && |states| == |sched| + 1 && |sched| >= 1
    ensures sched[|sched| - 1] == Syncer(UnpinVa(A))
    ensures states[|sched| - 1] == Sys(Off, Listings(Off)) && states[|sched|] == Sys(Free, Listings(Off))
  {
    hide Runs, Clear, Provisionable, TeardownReady, TeardownDone, Orphan;
    var s: Sys;
    sched, states, s := Unplugged();
    assert s.p.snap[N] == Shown(Machine([], [], [])) == map[];
    sched, states, s := Extend(sched, states, Syncer(UnpinVa(A)));
    assert s.w.vas == map[A := Going.(pinned := false)];
  }

  // and goes on to prune.
  lemma LettingGo() returns (sched: seq<Step>, states: seq<Sys>)
    ensures Runs(sched, states) && |states| == |sched| + 1 && |sched| >= 3
    ensures var n := |sched|;
            && sched[n - 3] == Syncer(UnpinVa(A)) && sched[n - 2] == List(StartPrune)
            && states[n - 3] == Sys(Off, Listings(Off)) && states[n - 2] == Sys(Free, Listings(Off))
            && states[n - 1].w == Free && states[n] == Sys(Free, NoView)
  {
    hide Runs, Listings;
    var s: Sys;
    sched, states := Freed();
    assert states[|sched|].p.stage == RUNNING by { ListingsRun(Off); }
    sched, states, s := Extend(sched, states, List(StartPrune));
    sched, states, s := Extend(sched, states, List(EndPass));
  }

  lemma ListingsRun(w: World)
    ensures Listings(w).stage == RUNNING
  {
  }

  /** There is a fair timeline in which an attachment in use is deleted: the theorem is about something. */
  lemma FairExists() returns (at: Timeline, moves: Schedule, i: nat)
    ensures Trace(at, moves) && Fair(at, moves, A, Going)
    ensures A in at(i).w.vas && at(i).w.vas[A] == Going
  {
    hide Runs, Trace, Fair, KvDo;
    var sched, states := LettingGo();
    var n := |sched|;
    var k := n - 2;
    at, moves, i := Continued(states), Resting(sched), n - 3;
    assert states[n - 3].p.snap[N] == Shown(Machine([], [], [])) == map[];
    forall c | Called(at(k).p, at(k).p.pvs, A, c) ensures IssuedIn(at, moves, k, c) {
      assert c == UnpinVa(A);
      assert moves(n - 3) == sched[n - 3];
      assert forall l: nat | n - 3 <= l <= k :: Applies(at, l);
    }
    assert moves(k) == sched[k];
    assert ServesAt(at, moves, k, A);
    EmptyIsIdle(states[n], Going);
    ReleasedIsFair(sched, states, k, A, Going);
  }
}
