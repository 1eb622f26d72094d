/** What deleting a TenantCluster guarantees in every run: unplug before delete, and a finalizer that
    drops only when nothing is left, whichever calls fail and whoever moves in between. */
module TeardownSafety {
  import opened Hotplug
  import opened StorageMachine
  import opened StorageCore
  import opened TeardownMachine

  /* ----- The listings ----- */

  ghost predicate ListsKnow(s: State) {
    var p := s.pass;
    && s.owned <= s.mine
    && (p.stage == Idle ==> p == NoPass)
    && (p.stage != Idle ==> s.owned <= p.listed <= s.mine)
    && (p.stage == GotVMs ==> s.hotplug) && (p.stage == Ready && !s.hotplug ==> p.listed == {})
    && p.gone !! s.owned
    && (p.rest.Some? ==> s.others <= p.rest.value && p.cleared !! s.others)
  }

  // Whether a move changes the pass, the tenant's PVCs or its other objects.
  predicate OnLists(t: Move) {
    || t.GetPVCs? || t.GetVMs? || t.GetVMIs? || t.GetNone? || t.GetOthers?
    || t.DeletePVC? || t.DeleteOther? || t.Release? || t.Stop?
  }

  lemma ListsMove(s: State, t: Move)
    requires ListsKnow(s) && Can(s, t) && OnLists(t)
    ensures ListsKnow(Make(s, t))
  {
    hide Done, Attached, WithStatus, FromMachine;
  }

  // All others change at most what came of the calls.
  lemma OtherMove(s: State, t: Move)
    requires Can(s, t) && !OnLists(t)
    ensures var s', p, p' := Make(s, t), s.pass, Make(s, t).pass;
            && s' == s.(vms := s'.vms, foreign := s'.foreign, pass := p')
            && p' == p.(asked := p'.asked, present := p'.present, missing := p'.missing, taken := p'.taken)
            && (p.stage == Idle ==> p' == p)
  {
    hide Done, Attached, Derived, KvDo;
  }

  lemma ListsStep(s: State, t: Move)
    requires ListsKnow(s) && Can(s, t)
    ensures ListsKnow(Make(s, t))
  {
    hide Can, Make;
    if OnLists(t) { ListsMove(s, t); } else { OtherMove(s, t); }
  }

  // What a VM has of ours is shown, and wanted volumes are shown as wanted.
  ghost predicate Covers(s: State, n: Node, v: string) {
    && (s.pass.stage == GotVMs || (s.pass.stage == Ready && s.hotplug) ==>
          (WantedOn(s.vms, n, v) ==> SeenOn(s.pass, n, NameFor(v)).inSpec))
    && (s.pass.stage == GotVMs ==> (Carried(s.vms, n, v) ==> n in s.pass.snap))
    && (s.pass.stage == Ready && s.hotplug ==> (Carried(s.vms, n, v) ==> ShownOn(s.pass, n, NameFor(v))))
  }

  ghost predicate SnapshotCovers(s: State) {
    forall n, v | v in s.mine :: Covers(s, n, v)
  }

  lemma ListingCovers(s: State, t: Move, n: Node, v: string)
    requires Can(s, t) && (t.GetVMs? || t.GetVMIs?) && v in s.mine && (t.GetVMIs? ==> Covers(s, n, v))
    ensures Covers(Make(s, t), n, v)
  {
    if n in s.vms {
      if t.GetVMs? {
        MergeMeaning(s.vms[n].spec, s.vms[n].requests, [], NameFor(v));
      } else if n in s.pass.snap {
        StatusMerged(s.pass.snap[n], s.vms[n].status, NameFor(v));
      }
    }
  }

  lemma CoversStep(s: State, t: Move)
    requires ListsKnow(s) && SnapshotCovers(s) && Can(s, t)
    ensures SnapshotCovers(Make(s, t))
  {
    hide Carries, Wanted, KvDo, ListsKnow;
    forall n, v | v in s.mine ensures Covers(Make(s, t), n, v) {
      assert Covers(s, n, v);
      if t.GetVMs? || t.GetVMIs? {
        ListingCovers(s, t, n, v);
      } else {
        NothingNew(s, t, n, v);
        SameSnapshot(s, t);
      }
    }
  }

  lemma SameSnapshot(s: State, t: Move)
    requires Can(s, t) && !t.GetVMs? && !t.GetVMIs?
    ensures var p, p' := s.pass, Make(s, t).pass;
            p'.snap == map[] || (p'.snap == p.snap && (p'.stage == p.stage || (p'.stage == Ready && !s.hotplug)))
    ensures Make(s, t).pass.stage == Idle || Make(s, t).pass.stage == GotPVCs || t.GetNone? || Make(s, t).pass.snap == s.pass.snap
  {
  }

  /* ----- Unplug before delete ----- */

  ghost predicate Safe(s: State) {
    ListsKnow(s) && SnapshotCovers(s)
  }

  lemma {:induction false} AlwaysSafe(moves: seq<Move>, states: seq<State>, i: nat)
    requires TeardownRun(moves, states) && i < |states|
    ensures Safe(states[i])
    decreases i
  {
    hide ListsKnow, SnapshotCovers;
    if i == 0 {
      StartSafe(states[0]);
    } else {
      AlwaysSafe(moves, states, i - 1);
      ListsStep(states[i - 1], moves[i - 1]);
      CoversStep(states[i - 1], moves[i - 1]);
    }
  }

  lemma StartSafe(s: State)
    requires Start(s)
    ensures Safe(s)
  {
  }

  lemma {:induction false} SameMine(moves: seq<Move>, states: seq<State>, i: nat, k: nat)
    requires TeardownRun(moves, states) && i <= k < |states|
    ensures states[k].mine == states[i].mine
    decreases k
  {
    if i < k { SameMine(moves, states, i, k - 1); }
  }

  // What is off every VM, or wanted by none, stays so.
  lemma {:induction false} StaysOff(moves: seq<Move>, states: seq<State>, i: nat, k: nat, n: Node, v: string)
    requires TeardownRun(moves, states) && i <= k < |states| && v in states[i].mine
    ensures Carried(states[k].vms, n, v) ==> Carried(states[i].vms, n, v)
    ensures WantedOn(states[k].vms, n, v) ==> WantedOn(states[i].vms, n, v)
    decreases k
  {
    hide Carries, Wanted;
    if i < k {
      StaysOff(moves, states, i, k - 1, n, v);
      SameMine(moves, states, i, k - 1);
      NothingNew(states[k - 1], moves[k - 1], n, v);
    }
  }

  /** A PVC that teardown deletes is off every VM then and for ever after, whatever KubeVirt still had in
      its queues, whichever calls failed, and although the snapshot is old by then. */
  lemma DeletedIsOff(moves: seq<Move>, states: seq<State>, i: nat, k: nat, n: Node, v: string)
    requires TeardownRun(moves, states) && i < |moves| && moves[i] == DeletePVC(v) && i <= k < |states|
    ensures !Carried(states[k].vms, n, v)
  {
    hide Carries;
    AlwaysSafe(moves, states, i);
    StaysOff(moves, states, i, k, n, v);
    assert Covers(states[i], n, v);
  }

  /* ----- The finalizer goes last ----- */

  /** The finalizer drops only when every PVC and every other labelled object of the tenant is deleted. */
  lemma ReleasedIsEmpty(moves: seq<Move>, states: seq<State>, i: nat)
    requires TeardownRun(moves, states) && i < |moves| && moves[i] == Release
    ensures states[i].owned == {} && states[i].others == {}
  {
    AlwaysSafe(moves, states, i);
  }

  // Volumes of ours are queued and in specs under the claim their name derives from.
  ghost predicate WellNamed(vms: map<Node, Machine>, mine: set<string>) {
    forall n, v | n in vms && v in mine ::
      && (forall i | 0 <= i < |vms[n].spec| && vms[n].spec[i].name == NameFor(v) :: vms[n].spec[i].claim == v)
      && (forall i | 0 <= i < |vms[n].requests| && vms[n].requests[i].Add? && vms[n].requests[i].name == NameFor(v) ::
            vms[n].requests[i].claim == v)
  }

  // So they are shown under that claim.
  ghost predicate ShownNamed(s: State) {
    forall n, v | v in s.mine && SeenOn(s.pass, n, NameFor(v)).inSpec :: SeenOn(s.pass, n, NameFor(v)).claim == v
  }

  // A claim of ours that was found is one of the PVCs listed, or somebody else's.
  ghost predicate FoundKnown(s: State) {
    forall r, v | r in s.pass.present && v in s.mine && r.1 == NameFor(v) :: v in s.pass.listed || v in s.pass.taken
  }

  ghost predicate AllNamed(s: State) {
    "" !in s.mine && WellNamed(s.vms, s.mine) && ShownNamed(s) && FoundKnown(s)
  }

  lemma {:induction false} WithoutNamed(spec: seq<SpecVolume>, name: VolumeName, x: VolumeName, claim: string)
    requires forall i | 0 <= i < |spec| && spec[i].name == x :: spec[i].claim == claim
    ensures forall i | 0 <= i < |Without(spec, name)| && Without(spec, name)[i].name == x :: Without(spec, name)[i].claim == claim
  {
    if spec != [] { WithoutNamed(spec[1..], name, x, claim); }
  }

  lemma KubeVirtNamed(m: Machine, k: KvStep, v: string)
    requires KvEnabled(m, k) && WellNamed(map["" := m], {v})
    ensures WellNamed(map["" := KvDo(m, k)], {v})
  {
    var vms, m' := map["" := m], KvDo(m, k);
    assert vms[""] == m;
    if k.Apply? {
      assert forall i | 0 <= i < |m'.requests| :: m'.requests[i] == m.requests[if i < k.i then i else i + 1];
      if m.requests[k.i].Remove? { WithoutNamed(m.spec, m.requests[k.i].name, NameFor(v), v); }
    }
  }

  lemma OneNamed(vms: map<Node, Machine>, mine: set<string>)
    ensures WellNamed(vms, mine) <==> forall n, v | n in vms && v in mine :: WellNamed(map["" := vms[n]], {v})
  {
    forall n, v | n in vms && v in mine && WellNamed(map["" := vms[n]], {v}) ensures map["" := vms[n]][""] == vms[n] {}
  }

  lemma AskedNamed(m: Machine, r: Request, v: string)
    requires WellNamed(map["" := m], {v}) && (r.Add? && r.name == NameFor(v) ==> r.claim == v)
    ensures WellNamed(map["" := m.(requests := m.requests + [r])], {v})
  {
    assert map["" := m][""] == m;
  }

  lemma WellNamedStep(s: State, t: Move)
    requires WellNamed(s.vms, s.mine) && Can(s, t)
    ensures WellNamed(Make(s, t).vms, s.mine)
  {
    hide WellNamed, KvDo;
    var s' := Make(s, t);
    OneNamed(s.vms, s.mine);
    OneNamed(s'.vms, s.mine);
    forall n, v | n in s'.vms && v in s.mine ensures WellNamed(map["" := s'.vms[n]], {v}) {
      assert NameFor(v) in Names(s.mine);
      match t {
        case KubeVirt(m, k) => if m == n { KubeVirtNamed(s.vms[m], k, v); }
        case VmMade(m, spec) => if m == n { NewNamed(spec, v); }
        case VmAsked(m, r) => if m == n { AskedNamed(s.vms[n], r, v); }
        case Detach(u, m) => if m == n { AskedNamed(s.vms[n], Remove(NameFor(u)), v); }
        case Purge(m, name) => if m == n { AskedNamed(s.vms[n], Remove(name), v); }
        case _ =>
      }
    }
  }

  lemma NewNamed(spec: seq<SpecVolume>, v: string)
    requires forall i | 0 <= i < |spec| :: spec[i].name != NameFor(v)
    ensures WellNamed(map["" := Machine(spec, [], [])], {v})
  {
  }

  // The storage protocol of module StorageMachine names them so.
  lemma ProtocolStepNamed(s: Sys, t: Step, mine: set<string>)
    requires WellNamed(s.w.vms, mine) && Enabled(s, t)
    ensures WellNamed(Do(s, t).w.vms, mine)
  {
    hide WellNamed, KvDo;
    var vms, vms' := s.w.vms, Do(s, t).w.vms;
    OneNamed(vms, mine);
    OneNamed(vms', mine);
    forall n, v | n in vms' && v in mine ensures WellNamed(map["" := vms'[n]], {v}) {
      match t {
        case Kube(m, k) => if m == n { KubeVirtNamed(vms[m], k, v); }
        case Host(h) => if h.VmCreate? && h.n == n { NewNamed(h.spec, v); }
        case Syncer(c) =>
          match c {
            case AddVolume(a) => if s.p.vas[a].node == n { AskedNamed(vms[n], Add(NameFor(s.p.vas[a].vol), s.p.vas[a].vol), v); }
            case RemoveForVa(a) => if s.p.vas[a].node == n { AskedNamed(vms[n], Remove(NameFor(s.p.vas[a].vol)), v); }
            case Unplug(u, m) => if m == n { AskedNamed(vms[n], Remove(NameFor(u)), v); }
            case Sweep(m, u) => if m == n { AskedNamed(vms[n], Remove(NameFor(u)), v); }
            case _ =>
          }
        case _ =>
      }
    }
  }

  /** Whatever the storage protocol leaves behind is a state in which volumes carry the names of their
      claims, which is where a teardown takes over. */
  lemma {:induction false} ProtocolNamesWell(sched: seq<Step>, states: seq<Sys>, i: nat, mine: set<string>)
    requires Runs(sched, states) && i < |states|
    ensures WellNamed(states[i].w.vms, mine)
    decreases i
  {
    hide WellNamed;
    if i == 0 {
      NoneNamed(mine);
    } else {
      ProtocolNamesWell(sched, states, i - 1, mine);
      ProtocolStepNamed(states[i - 1], sched[i - 1], mine);
    }
  }

  lemma NoneNamed(mine: set<string>)
    ensures WellNamed(map[], mine)
  {
  }

  lemma {:induction false} SpecClaimNamed(spec: seq<SpecVolume>, name: VolumeName, v: string)
    requires forall i | 0 <= i < |spec| && spec[i].name == name :: spec[i].claim == v
    ensures SpecClaim(spec, name) == if InSpec(spec, name) then v else ""
  {
    if spec != [] {
      var n := |spec| - 1;
      SpecClaimNamed(spec[..n], name, v);
      if InSpec(spec, name) && spec[n].name != name {
        var i :| 0 <= i < |spec| && spec[i].name == name;
        assert spec[..n][i].name == name;
      }
    }
  }

  lemma {:induction false} QueuedClaimNamed(requests: seq<Request>, name: VolumeName, v: string)
    requires v != ""
    requires forall i | 0 <= i < |requests| && requests[i].Add? && requests[i].name == name :: requests[i].claim == v
    ensures QueuedClaim(requests, name) == if Queued(requests, name) then v else ""
  {
    if requests != [] {
      QueuedClaimNamed(requests[1..], name, v);
      if i :| 0 <= i < |requests| && requests[i].Add? && requests[i].name == name {
        assert i > 0 ==> requests[1..][i - 1].name == name;
      }
      if i :| 0 <= i < |requests[1..]| && requests[1..][i].Add? && requests[1..][i].name == name {
        assert requests[i + 1].name == name;
      }
    }
  }

  lemma ListedNamed(s: State, t: Move)
    requires AllNamed(s) && Can(s, t) && (t.GetVMs? || t.GetVMIs?)
    ensures ShownNamed(Make(s, t))
  {
    var p' := Make(s, t).pass;
    forall n, v | v in s.mine && SeenOn(p', n, NameFor(v)).inSpec ensures SeenOn(p', n, NameFor(v)).claim == v {
      if n in s.vms {
        if t.GetVMs? {
          MergeMeaning(s.vms[n].spec, s.vms[n].requests, [], NameFor(v));
          SpecClaimNamed(s.vms[n].spec, NameFor(v), v);
          QueuedClaimNamed(s.vms[n].requests, NameFor(v), v);
        } else {
          StatusMerged(s.pass.snap[n], s.vms[n].status, NameFor(v));
          assert SeenOn(s.pass, n, NameFor(v)).inSpec;
        }
      } else {
        assert SeenOn(s.pass, n, NameFor(v)).inSpec;
      }
    }
  }

  lemma NamedStep(s: State, t: Move)
    requires ListsKnow(s) && AllNamed(s) && Can(s, t)
    ensures AllNamed(Make(s, t))
  {
    hide WellNamed;
    WellNamedStep(s, t);
    FoundStep(s, t);
    if t.GetVMs? || t.GetVMIs? {
      ListedNamed(s, t);
    } else {
      SameSnapshot(s, t);
      forall n, v | v in s.mine && SeenOn(Make(s, t).pass, n, NameFor(v)).inSpec
        ensures SeenOn(Make(s, t).pass, n, NameFor(v)).claim == v
      {
        assert SeenOn(s.pass, n, NameFor(v)).inSpec;
      }
    }
  }

  lemma FoundStep(s: State, t: Move)
    requires ListsKnow(s) && FoundKnown(s) && Can(s, t)
    ensures FoundKnown(Make(s, t))
  {
    hide KvDo;
    if t.ReadClaim? {
      assert forall v | t.name == NameFor(v) :: s.pass.snap[t.n][t.name].claim == v;
    }
  }

  lemma {:induction false} AlwaysNamed(moves: seq<Move>, states: seq<State>, i: nat)
    requires TeardownRun(moves, states) && i < |states| && "" !in states[0].mine && WellNamed(states[0].vms, states[0].mine)
    ensures AllNamed(states[i])
    decreases i
  {
    hide ListsKnow, SnapshotCovers, WellNamed;
    if i > 0 {
      AlwaysNamed(moves, states, i - 1);
      AlwaysSafe(moves, states, i - 1);
      NamedStep(states[i - 1], moves[i - 1]);
    }
  }

  /** When the finalizer drops, no VM has a volume of the tenant in its spec or in its queue, and none
      will again: nothing is left to materialise after the TenantCluster is gone. The exception is a name
      under which the pass found somebody else's PVC. */
  lemma ReleasedIsUnwanted(moves: seq<Move>, states: seq<State>, i: nat, k: nat, n: Node, v: string)
    requires TeardownRun(moves, states) && "" !in states[0].mine && WellNamed(states[0].vms, states[0].mine)
    requires i < |moves| && moves[i] == Release && i <= k < |states|
    requires v in states[i].mine && states[i].hotplug && v !in states[i].pass.taken
    ensures !WantedOn(states[k].vms, n, v)
  {
    hide Wanted, WellNamed;
    AlwaysSafe(moves, states, i);
    AlwaysNamed(moves, states, i);
    StaysOff(moves, states, i, k, n, v);
    assert Covers(states[i], n, v);
    var p := states[i].pass;
    if SeenOn(p, n, NameFor(v)).inSpec {
      assert Derived(p, n, NameFor(v));
      assert (n, NameFor(v)) in p.present;
      assert Attached(p, v);
    }
  }
}
