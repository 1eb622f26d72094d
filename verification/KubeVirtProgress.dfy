/** KubeVirt works off what it has: with no addvolume issued, every volume of ours only moves
    forward through its stages (queued, in spec, reported, gone). The weight below counts how far
    each has to go; `mine` are the names it counts. */
module KubeVirtProgress {
  import opened Hotplug
  import opened StorageMachine

  function AddWeight(requests: seq<Request>, mine: set<VolumeName>): nat {
    if requests == [] then 0
    else (if requests[0].Add? && requests[0].name in mine then 4 else 0) + AddWeight(requests[1..], mine)
  }

  function SpecWeight(spec: seq<SpecVolume>, status: seq<VolumeStatus>, mine: set<VolumeName>): nat {
    if spec == [] then 0
    else (if spec[0].name !in mine then 0 else if Reported(status, spec[0].name) then 1 else 3)
         + SpecWeight(spec[1..], status, mine)
  }

  function StatusWeight(status: seq<VolumeStatus>, mine: set<VolumeName>): nat {
    if status == [] then 0
    else (if status[0].name in mine then 1 else 0) + StatusWeight(status[1..], mine)
  }

  function Weight(m: Machine, mine: set<VolumeName>): nat {
    AddWeight(m.requests, mine) + SpecWeight(m.spec, m.status, mine) + StatusWeight(m.status, mine)
  }

  /* ----- How the parts react to the basic edits ----- */

  lemma {:induction false} AddWeightCut(requests: seq<Request>, i: nat, mine: set<VolumeName>)
    requires i < |requests|
    ensures AddWeight(requests, mine) ==
            AddWeight(requests[..i] + requests[i + 1..], mine) + if requests[i].Add? && requests[i].name in mine then 4 else 0
  {
    if i == 0 {
      assert requests[..0] + requests[1..] == requests[1..];
    } else {
      AddWeightCut(requests[1..], i - 1, mine);
      assert (requests[..i] + requests[i + 1..])[1..] == requests[1..][..i - 1] + requests[1..][i..];
    }
  }

  lemma {:induction false} AddWeightAppend(requests: seq<Request>, r: Request, mine: set<VolumeName>)
    ensures AddWeight(requests + [r], mine) == AddWeight(requests, mine) + if r.Add? && r.name in mine then 4 else 0
  {
    if requests == [] {
      assert [r][1..] == [];
    } else {
      AddWeightAppend(requests[1..], r, mine);
      assert (requests + [r])[1..] == requests[1..] + [r];
    }
  }

  lemma {:induction false} SpecWeightAppend(spec: seq<SpecVolume>, v: SpecVolume, status: seq<VolumeStatus>, mine: set<VolumeName>)
    ensures SpecWeight(spec + [v], status, mine)
            == SpecWeight(spec, status, mine) + SpecWeight([v], status, mine)
    ensures SpecWeight([v], status, mine) <= 3 && (v.name !in mine ==> SpecWeight([v], status, mine) == 0)
  {
    assert [v][1..] == [];
    assert SpecWeight([], status, mine) == 0;
    if spec == [] {
      assert [] + [v] == [v];
    } else {
      SpecWeightAppend(spec[1..], v, status, mine);
      assert (spec + [v])[1..] == spec[1..] + [v];
    }
  }

  lemma {:induction false} SpecWeightWithout(spec: seq<SpecVolume>, x: VolumeName, status: seq<VolumeStatus>, mine: set<VolumeName>)
    ensures SpecWeight(Without(spec, x), status, mine) <= SpecWeight(spec, status, mine)
    ensures InSpec(spec, x) && x in mine ==> SpecWeight(Without(spec, x), status, mine) < SpecWeight(spec, status, mine)
  {
    if spec != [] {
      SpecWeightWithout(spec[1..], x, status, mine);
      if spec[0].name != x {
        assert ([spec[0]] + Without(spec[1..], x))[1..] == Without(spec[1..], x);
        if InSpec(spec, x) {
          var i :| 0 <= i < |spec| && spec[i].name == x;
          assert spec[1..][i - 1].name == x;
        }
      }
    }
  }

  // Reporting more names only lowers the weight of the spec, and does for one it contains.
  lemma {:induction false} SpecWeightReport(spec: seq<SpecVolume>, status: seq<VolumeStatus>, v: VolumeStatus, mine: set<VolumeName>)
    ensures SpecWeight(spec, status + [v], mine) <= SpecWeight(spec, status, mine)
    ensures InSpec(spec, v.name) && v.name in mine && !Reported(status, v.name) ==>
              SpecWeight(spec, status + [v], mine) + 2 <= SpecWeight(spec, status, mine)
  {
    if spec != [] {
      SpecWeightReport(spec[1..], status, v, mine);
      ReportedAppend(status, v, spec[0].name);
      if InSpec(spec, v.name) && spec[0].name != v.name {
        var i :| 0 <= i < |spec| && spec[i].name == v.name;
        assert spec[1..][i - 1].name == v.name;
      }
    }
  }

  lemma ReportedAppend(status: seq<VolumeStatus>, v: VolumeStatus, x: VolumeName)
    ensures Reported(status + [v], x) <==> Reported(status, x) || v.name == x
  {
    if Reported(status, x) {
      var i :| 0 <= i < |status| && status[i].name == x;
      assert (status + [v])[i].name == x;
    }
    if v.name == x { assert (status + [v])[|status|].name == x; }
    if Reported(status + [v], x) {
      var i :| 0 <= i < |status + [v]| && (status + [v])[i].name == x;
      assert i < |status| ==> status[i].name == x;
    }
  }

  // The weight of a spec depends only on which of its names are reported.
  lemma {:induction false} SpecWeightSame(spec: seq<SpecVolume>, status: seq<VolumeStatus>, status': seq<VolumeStatus>, mine: set<VolumeName>)
    requires forall i | 0 <= i < |spec| :: Reported(status, spec[i].name) == Reported(status', spec[i].name)
    ensures SpecWeight(spec, status, mine) == SpecWeight(spec, status', mine)
  {
    if spec != [] {
      assert Reported(status, spec[0].name) == Reported(status', spec[0].name);
      forall i | 0 <= i < |spec[1..]|
        ensures Reported(status, spec[1..][i].name) == Reported(status', spec[1..][i].name)
      {
        assert spec[1..][i] == spec[i + 1];
      }
      SpecWeightSame(spec[1..], status, status', mine);
    }
  }

  lemma {:induction false} StatusWeightAppend(status: seq<VolumeStatus>, v: VolumeStatus, mine: set<VolumeName>)
    ensures StatusWeight(status + [v], mine) == StatusWeight(status, mine) + if v.name in mine then 1 else 0
  {
    if status == [] {
      assert [v][1..] == [];
    } else {
      StatusWeightAppend(status[1..], v, mine);
      assert (status + [v])[1..] == status[1..] + [v];
    }
  }

  lemma {:induction false} StatusWeightDrop(status: seq<VolumeStatus>, x: VolumeName, mine: set<VolumeName>)
    ensures StatusWeight(Unreported(status, x), mine) <= StatusWeight(status, mine)
    ensures x in mine && Reported(status, x) ==> StatusWeight(Unreported(status, x), mine) < StatusWeight(status, mine)
    ensures forall y | y != x :: Reported(Unreported(status, x), y) == Reported(status, y)
  {
    if status != [] {
      StatusWeightDrop(status[1..], x, mine);
      if status[0].name != x {
        assert ([status[0]] + Unreported(status[1..], x))[1..] == Unreported(status[1..], x);
      }
      forall y ensures Reported(status, y) <==> status[0].name == y || Reported(status[1..], y) {
        ReportedHead(status, y);
      }
      forall y | status[0].name != x
        ensures Reported(Unreported(status, x), y) <==> status[0].name == y || Reported(Unreported(status[1..], x), y)
      {
        ReportedHead(Unreported(status, x), y);
      }
    }
  }

  lemma {:induction false} StatusWeightUpdate(status: seq<VolumeStatus>, i: nat, phase: string, mine: set<VolumeName>)
    requires i < |status|
    ensures StatusWeight(status[i := status[i].(phase := phase)], mine) == StatusWeight(status, mine)
  {
    var status' := status[i := status[i].(phase := phase)];
    if i == 0 {
      assert status'[1..] == status[1..];
    } else {
      StatusWeightUpdate(status[1..], i - 1, phase, mine);
      assert status'[1..] == status[1..][i - 1 := status[1..][i - 1].(phase := phase)];
    }
  }

  lemma ReportedUpdate(status: seq<VolumeStatus>, i: nat, phase: string, x: VolumeName)
    requires i < |status|
    ensures Reported(status[i := status[i].(phase := phase)], x) == Reported(status, x)
  {
    var status' := status[i := status[i].(phase := phase)];
    if k :| 0 <= k < |status| && status[k].name == x { assert status'[k].name == x; }
    if k :| 0 <= k < |status'| && status'[k].name == x { assert status[k].name == x; }
  }

  /* ----- Steps ----- */

  // A step that has something to do, seen before it is taken.
  ghost predicate Effective(m: Machine, t: KvStep, mine: set<VolumeName>) {
    KvEnabled(m, t) &&
    match t
    case Apply(i) =>
      m.requests[i].name in mine && (m.requests[i].Add? || InSpec(m.spec, m.requests[i].name))
    case Observe(name, _) => name in mine && !Reported(m.status, name)
    case Progress(_, _) => false
    case Drop(name) => name in mine && Reported(m.status, name)
  }

  /** No KubeVirt step ever raises the weight, and it falls exactly when the step is effective. */
  lemma StepWeight(m: Machine, t: KvStep, mine: set<VolumeName>)
    requires KvEnabled(m, t)
    ensures Weight(KvDo(m, t), mine) <= Weight(m, mine)
    ensures Weight(KvDo(m, t), mine) < Weight(m, mine) <==> Effective(m, t, mine)
  {
    match t {
      case Apply(i) =>
        AddWeightCut(m.requests, i, mine);
        match m.requests[i] {
          case Add(name, claim) => SpecWeightAppend(m.spec, SpecVolume(name, claim), m.status, mine);
          case Remove(name) =>
            SpecWeightWithout(m.spec, name, m.status, mine);
            WithoutPlain(m.spec, name, m.status, mine);
        }
      case Observe(name, phase) =>
        var v := VolumeStatus(name, phase);
        StatusWeightAppend(m.status, v, mine);
        SpecWeightReport(m.spec, m.status, v, mine);
        if name !in mine { SpecWeightPlain(m.spec, m.status, v, mine); }
      case Progress(i, phase) =>
        StatusWeightUpdate(m.status, i, phase, mine);
        forall k | 0 <= k < |m.spec|
          ensures Reported(m.status, m.spec[k].name) == Reported(KvDo(m, t).status, m.spec[k].name)
        {
          ReportedUpdate(m.status, i, phase, m.spec[k].name);
        }
        SpecWeightSame(m.spec, m.status, KvDo(m, t).status, mine);
      case Drop(name) =>
        StatusWeightDrop(m.status, name, mine);
        SpecWeightSame(m.spec, m.status, Unreported(m.status, name), mine);
        DropNothing(m.status, name, mine);
    }
  }

  lemma {:induction false} WithoutPlain(spec: seq<SpecVolume>, x: VolumeName, status: seq<VolumeStatus>, mine: set<VolumeName>)
    ensures x !in mine || !InSpec(spec, x) ==> SpecWeight(Without(spec, x), status, mine) == SpecWeight(spec, status, mine)
  {
    if spec != [] && (x !in mine || !InSpec(spec, x)) {
      if InSpec(spec[1..], x) {
        var i :| 0 <= i < |spec[1..]| && spec[1..][i].name == x;
        assert spec[i + 1].name == x;
      }
      WithoutPlain(spec[1..], x, status, mine);
      if spec[0].name != x {
        assert ([spec[0]] + Without(spec[1..], x))[1..] == Without(spec[1..], x);
      } else {
        assert spec[0].name == x;
      }
    }
  }

  lemma {:induction false} SpecWeightPlain(spec: seq<SpecVolume>, status: seq<VolumeStatus>, v: VolumeStatus, mine: set<VolumeName>)
    requires v.name !in mine
    ensures SpecWeight(spec, status + [v], mine) == SpecWeight(spec, status, mine)
  {
    if spec != [] {
      ReportedAppend(status, v, spec[0].name);
      SpecWeightPlain(spec[1..], status, v, mine);
    }
  }

  lemma {:induction false} DropNothing(status: seq<VolumeStatus>, x: VolumeName, mine: set<VolumeName>)
    ensures x !in mine || !Reported(status, x) ==> StatusWeight(Unreported(status, x), mine) == StatusWeight(status, mine)
  {
    if status != [] && (x !in mine || !Reported(status, x)) {
      ReportedHead(status, x);
      DropNothing(status[1..], x, mine);
      if status[0].name != x {
        assert ([status[0]] + Unreported(status[1..], x))[1..] == Unreported(status[1..], x);
      }
    }
  }

  /** A step that is not effective leaves every volume of ours where it is. */
  lemma IneffectiveKeeps(m: Machine, t: KvStep, mine: set<VolumeName>)
    requires KvEnabled(m, t) && !Effective(m, t, mine)
    ensures forall x | x in mine ::
              InSpec(KvDo(m, t).spec, x) == InSpec(m.spec, x) && Reported(KvDo(m, t).status, x) == Reported(m.status, x)
  {
    var m' := KvDo(m, t);
    forall x | x in mine ensures InSpec(m'.spec, x) == InSpec(m.spec, x) && Reported(m'.status, x) == Reported(m.status, x) {
      match t {
        case Apply(i) =>
          match m.requests[i] {
            case Add(name, claim) =>
              if k :| 0 <= k < |m'.spec| && m'.spec[k].name == x { assert k < |m.spec| ==> m.spec[k].name == x; }
              if k :| 0 <= k < |m.spec| && m.spec[k].name == x { assert m'.spec[k].name == x; }
            case Remove(name) => WithoutOthers(m.spec, name, x);
          }
        case Observe(name, phase) => ReportedAppend(m.status, VolumeStatus(name, phase), x);
        case Progress(i, phase) => ReportedUpdate(m.status, i, phase, x);
        case Drop(name) =>
          StatusWeightDrop(m.status, name, mine);
          if x == name { DropAbsent(m.status, x); }
      }
    }
  }

  /** Work that is there stays there until some of it is done: an ineffective step leaves an
      effective one enabled. */
  lemma BusyStaysBusy(m: Machine, t: KvStep, k: KvStep, mine: set<VolumeName>) returns (k': KvStep)
    requires KvEnabled(m, t) && !Effective(m, t, mine) && Effective(m, k, mine)
    ensures Effective(KvDo(m, t), k', mine)
  {
    var m' := KvDo(m, t);
    k' := if k.Apply? && t.Apply? && t.i < k.i then Apply(k.i - 1) else k;
    IneffectiveKeeps(m, t, mine);
    assert t.Apply? && k.Apply? ==> m'.requests[k'.i] == m.requests[k.i];
  }

  // A volume of ours in the spec weighs something.
  lemma {:induction false} InSpecWeighs(spec: seq<SpecVolume>, status: seq<VolumeStatus>, x: VolumeName, mine: set<VolumeName>)
    requires InSpec(spec, x) && x in mine
    ensures SpecWeight(spec, status, mine) > 0
  {
    SpecHead(spec, x);
    if spec[0].name != x { InSpecWeighs(spec[1..], status, x, mine); }
  }

  lemma {:induction false} PlainSpecWeighsNothing(spec: seq<SpecVolume>, mine: set<VolumeName>)
    requires forall i | 0 <= i < |spec| :: spec[i].name !in mine
    ensures SpecWeight(spec, [], mine) == 0
  {
    if spec != [] {
      assert spec[0].name !in mine;
      PlainSpecWeighsNothing(spec[1..], mine);
    }
  }

  lemma {:induction false} WithoutOthers(spec: seq<SpecVolume>, name: VolumeName, x: VolumeName)
    requires x != name || !InSpec(spec, name)
    ensures InSpec(Without(spec, name), x) == InSpec(spec, x)
  {
    if spec != [] {
      if InSpec(spec[1..], name) {
        var i :| 0 <= i < |spec[1..]| && spec[1..][i].name == name;
        assert spec[i + 1].name == name;
      }
      if spec[0].name == name { assert InSpec(spec, name); }
      WithoutOthers(spec[1..], name, x);
      SpecHead(spec, x);
      if spec[0].name != name { SpecHead(Without(spec, name), x); }
    }
  }

  lemma {:induction false} DropAbsent(status: seq<VolumeStatus>, x: VolumeName)
    requires !Reported(status, x)
    ensures !Reported(Unreported(status, x), x)
  {
    if status != [] {
      ReportedHead(status, x);
      DropAbsent(status[1..], x);
      ReportedHead(Unreported(status, x), x);
    }
  }

  /* ----- All VMs together ----- */

  ghost function TotalWeight(vms: map<Node, Machine>, mine: set<VolumeName>): nat {
    if vms.Keys == {} then 0
    else
      var n :| n in vms.Keys;
      Weight(vms[n], mine) + TotalWeight(vms - {n}, mine)
  }

  lemma TotalUnfolds(vms: map<Node, Machine>, mine: set<VolumeName>) returns (n: Node)
    requires vms.Keys != {}
    ensures n in vms && TotalWeight(vms, mine) == Weight(vms[n], mine) + TotalWeight(vms - {n}, mine)
  {
    hide Weight;
    n :| n in vms.Keys && TotalWeight(vms, mine) == Weight(vms[n], mine) + TotalWeight(vms - {n}, mine);
  }

  lemma {:induction false} TotalSplit(vms: map<Node, Machine>, n: Node, mine: set<VolumeName>)
    requires n in vms
    ensures TotalWeight(vms, mine) == Weight(vms[n], mine) + TotalWeight(vms - {n}, mine)
    decreases |vms.Keys|
  {
    hide Weight, TotalWeight;
    var k := TotalUnfolds(vms, mine);
    if k != n {
      assert (vms - {k}).Keys == vms.Keys - {k};
      TotalSplit(vms - {k}, n, mine);
      assert (vms - {n}).Keys == vms.Keys - {n};
      TotalSplit(vms - {n}, k, mine);
      assert vms - {k} - {n} == vms - {n} - {k};
    }
  }

  lemma TotalUpdate(vms: map<Node, Machine>, n: Node, m: Machine, mine: set<VolumeName>)
    requires n in vms
    ensures TotalWeight(vms[n := m], mine) + Weight(vms[n], mine) == TotalWeight(vms, mine) + Weight(m, mine)
  {
    hide Weight, TotalWeight;
    TotalSplit(vms, n, mine);
    TotalSplit(vms[n := m], n, mine);
    assert vms[n := m] - {n} == vms - {n};
  }
}
