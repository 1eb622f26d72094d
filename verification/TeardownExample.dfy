/** A teardown from beginning to end: a PVC in use on a VM, the pass that has it unplugged, KubeVirt letting
    go, and the pass that deletes it and drops the finalizer. It goes on as a timeline of the kind the
    termination theorem is about. */
module TeardownExample {
  import opened Hotplug
  import opened StorageMachine
  import opened TeardownMachine
  import opened TeardownProgress
  import opened Wrappers

  const V := "pn1-pvc-uid-1"
  const N := "node-a"
  const O := "service-a"

  // A PVC in use on a VM, and a Service.
  const InUse := State(
    {V}, true, map[N := Machine([SpecVolume(NameFor(V), V)], [], [VolumeStatus(NameFor(V), READY)])],
    {V}, {}, {O}, false, NoPass)

  lemma Extend(moves: seq<Move>, states: seq<State>, t: Move) returns (moves': seq<Move>, states': seq<State>, s: State)
    requires TeardownRun(moves, states) && Can(states[|moves|], t)
    ensures moves' == moves + [t] && s == Make(states[|moves|], t) && states' == states + [s]
    ensures TeardownRun(moves', states') && |states'| == |moves'| + 1 && states'[|moves'|] == s && states'[|moves'| - 1] == states[|moves|]
    ensures states'[0] == states[0]
  {
    s := Make(states[|moves|], t);
    moves', states' := moves + [t], states + [s];
  }

  // The listings of a pass with nobody else moving.
  lemma Listings(moves: seq<Move>, states: seq<State>) returns (moves': seq<Move>, states': seq<State>, s: State)
    requires TeardownRun(moves, states)
    requires var s := states[|moves|]; s.pass == NoPass && !s.released && s.hotplug
    ensures TeardownRun(moves', states') && |states'| == |moves'| + 1 && states'[|moves'|] == s && states'[0] == states[0]
    ensures s == var t := states[|moves|]; t.(pass := NoPass.(stage := Ready, listed := t.owned, snap := s.pass.snap))
    ensures s.pass.snap.Keys == states[|moves|].vms.Keys
    ensures forall n | n in s.vms :: s.pass.snap[n] == WithStatus(FromMachine(s.vms[n].spec, s.vms[n].requests), s.vms[n].status)
  {
    hide TeardownRun, KvDo, Done, Attached, Derived, WithStatus, FromMachine;
    RunLength(moves, states);
    moves', states', s := Extend(moves, states, GetPVCs);
    moves', states', s := Extend(moves', states', GetVMs);
    moves', states', s := Extend(moves', states', GetVMIs);
  }

  lemma RunLength(moves: seq<Move>, states: seq<State>)
    requires TeardownRun(moves, states)
    ensures |states| == |moves| + 1
  {
  }

  // What the listings show of the volume in use, and of a VM without volumes.
  lemma ShownInUse()
    ensures var m := InUse.vms[N]; var vols := WithStatus(FromMachine(m.spec, m.requests), m.status);
            && NameFor(V) in vols && vols[NameFor(V)].inSpec && vols[NameFor(V)].claim == V
            && forall name | name in vols && name != NoName :: name == NameFor(V)
  {
    var m := InUse.vms[N];
    assert m.spec[0].name == NameFor(V);
    forall name: VolumeName | name != NoName
      ensures name in WithStatus(FromMachine(m.spec, m.requests), m.status) ==> name == NameFor(V)
    {
      MergeMeaning(m.spec, m.requests, m.status, name);
    }
    MergeMeaning(m.spec, m.requests, m.status, NameFor(V));
  }

  // The first pass: the volume is shown, so its VM is asked to let go.
  lemma FirstPass() returns (moves: seq<Move>, states: seq<State>)
    ensures TeardownRun(moves, states) && |states| == |moves| + 1 && states[0] == InUse
    ensures states[|moves|] == InUse.(others := {}, vms := Asking(InUse, N, Remove(NameFor(V))))
  {
    hide KvDo, Done, WithStatus, FromMachine;
    ShownInUse();
    var s: State;
    moves, states, s := Listings([], [InUse]);
    assert Derived(s.pass, N, NameFor(V)) && SeenOn(s.pass, N, NameFor(V)).inSpec;
    moves, states, s := Extend(moves, states, Detach(V, N));
    moves, states, s := Extend(moves, states, ReadClaim(N, NameFor(V)));
    moves, states := OthersGone(moves, states);
  }

  // Every pass goes on to delete the Service, if it is still there.
  lemma OthersGone(moves: seq<Move>, states: seq<State>) returns (moves': seq<Move>, states': seq<State>)
    requires TeardownRun(moves, states) && states[|moves|].pass.stage == Ready && states[|moves|].others == {O}
    ensures TeardownRun(moves', states') && |states'| == |moves'| + 1 && states'[0] == states[0]
    ensures states'[|moves'|] == states[|moves|].(others := {}, pass := NoPass)
  {
    hide TeardownRun, KvDo, KvEnabled, Done, Attached, Derived, SeenOn, Looking, Asking, OthersCan;
    RunLength(moves, states);
    var s: State;
    moves', states', s := Extend(moves, states, GetOthers);
    moves', states', s := Extend(moves', states', DeleteOther(O));
    moves', states', s := Extend(moves', states', Stop);
  }

  // KubeVirt takes the volume out of the spec, and stops reporting it.
  lemma LettingGo(m: Machine)
    requires m == Asking(InUse, N, Remove(NameFor(V)))[N]
    ensures KvEnabled(m, Apply(0)) && KvDo(m, Apply(0)) == m.(spec := [], requests := [])
    ensures var m' := m.(spec := [], requests := []);
            KvEnabled(m', Drop(NameFor(V))) && KvDo(m', Drop(NameFor(V))) == Machine([], [], [])
  {
    assert m.requests == [Remove(NameFor(V))];
    var name := NameFor(V);
    assert m.requests[..0] + m.requests[1..] == [] && m.spec[1..] == [] && m.status[1..] == [];
    assert Without([], name) == [] && Without(m.spec, name) == Without(m.spec[1..], name);
    assert Unreported([], name) == [] && Unreported(m.status, name) == Unreported(m.status[1..], name);
    assert InSpec(m.spec, name) && Reported(m.status, name) by { assert m.spec[0].name == name && m.status[0].name == name; }
  }

  lemma LetGo() returns (moves: seq<Move>, states: seq<State>)
    ensures TeardownRun(moves, states) && |states| == |moves| + 1 && states[0] == InUse
    ensures states[|moves|] == InUse.(others := {}, vms := map[N := Machine([], [], [])])
  {
    hide TeardownRun, KvDo, KvEnabled, Done;
    var s: State;
    moves, states := FirstPass();
    LettingGo(states[|moves|].vms[N]);
    moves, states, s := Extend(moves, states, KubeVirt(N, Apply(0)));
    moves, states, s := Extend(moves, states, KubeVirt(N, Drop(NameFor(V))));
  }

  lemma NothingShown(s: State)
    requires s.vms == map[N := Machine([], [], [])] && s.pass.snap.Keys == s.vms.Keys
    requires s.pass.snap[N] == WithStatus(FromMachine([], []), [])
    ensures forall n, name :: !ShownOn(s.pass, n, name)
  {
  }

  lemma AttachedIsShown(p: Pass, v: string)
    ensures Attached(p, v) <==> exists n :: ShownOn(p, n, NameFor(v))
  {
    if n :| n in p.snap && NameFor(v) in p.snap[n] { assert ShownOn(p, n, NameFor(v)); }
  }

  lemma NothingLeft(s: State)
    requires s.pass.stage == Ready && s.pass.listed == s.pass.gone && s.pass.rest == Some({})
    requires forall n, name :: !ShownOn(s.pass, n, name)
    ensures Done(s.pass)
  {
    forall v ensures !Attached(s.pass, v) { AttachedIsShown(s.pass, v); }
  }

  // The second pass finds nothing, and deletes the PVC.
  lemma DiskGone() returns (moves: seq<Move>, states: seq<State>)
    ensures TeardownRun(moves, states) && |states| == |moves| + 1 && states[0] == InUse
    ensures var s := states[|moves|];
            && s == InUse.(others := {}, vms := map[N := Machine([], [], [])], owned := {}, pass := s.pass)
            && s.pass == NoPass.(stage := Ready, listed := {V}, gone := {V}, snap := s.pass.snap)
            && forall n, name :: !ShownOn(s.pass, n, name)
  {
    hide TeardownRun, KvDo, Done, WithStatus, FromMachine, Attached, ShownOn;
    moves, states := LetGo();
    var s: State;
    moves, states, s := Listings(moves, states);
    NothingShown(s);
    AttachedIsShown(s.pass, V);
    moves, states, s := Extend(moves, states, DeletePVC(V));
    NothingShown(s);
  }

  // And drops the finalizer.
  lemma SecondPass() returns (moves: seq<Move>, states: seq<State>)
    ensures TeardownRun(moves, states) && |states| == |moves| + 1 && states[0] == InUse && moves != []
    ensures moves[|moves| - 1] == Release && states[|moves| - 1].pass.missing == {}
    ensures states[|moves|].vms == map[N := Machine([], [], [])]
  {
    hide TeardownRun, KvDo, Done, Attached, Derived;
    moves, states := DiskGone();
    var s: State;
    ghost var p := states[|moves|].pass;
    moves, states, s := Extend(moves, states, GetOthers);
    assert forall n, name :: ShownOn(s.pass, n, name) == ShownOn(p, n, name);
    NothingLeft(s);
    moves, states, s := Extend(moves, states, Release);
  }

  /** So timelines as the termination theorem asks for exist, with the finalizer on and a volume in use at
      the start. */
  lemma FairExists() returns (at: Timeline, moves: Schedule)
    ensures Trace(at, moves) && Fair(at, moves)
    ensures at(0) == InUse && !ReleasedAt(at, 0)
  {
    hide TeardownRun, Trace, Fair;
    var run, states := SecondPass();
    assert forall n, k :: !EffectiveOn(states[|run|], n, k);
    ReleasedIsFair(run, states);
    at, moves := Continued(states), Resting(run);
  }
}
