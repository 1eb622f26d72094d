/** The host-side hotplug surface, internal/kubevirt/hotplug.go: what each VirtualMachine
    carries, merged from three sources that KubeVirt updates at different times. */
module Hotplug {

  // A disk serial stands for the truncated SHA-256 of a volume handle. Only its injectivity
  // is used, which a constructor provides.
  datatype Serial = Serial(handle: string)

  // Names of volumes on a VM: the ones derived from a serial, and everybody else's.
  datatype VolumeName = Csi(serial: Serial) | Plain(name: string)

  function NameFor(hostPVC: string): VolumeName {
    Csi(Serial(hostPVC))
  }

  const NoName := Plain("")

  const READY := "Ready"

  datatype SpecVolume = SpecVolume(name: VolumeName, claim: string)
  datatype Request = Add(name: VolumeName, claim: string) | Remove(name: VolumeName)
  datatype VolumeStatus = VolumeStatus(name: VolumeName, phase: string)

  datatype VirtualMachine = VirtualMachine(name: string, spec: seq<SpecVolume>, requests: seq<Request>)
  datatype Instance = Instance(name: string, status: seq<VolumeStatus>)

  // What a pass knows of one volume on one VM. An empty claim or phase means "none".
  datatype VolumeState = VolumeState(inSpec: bool, phase: string, claim: string)

  type Volumes = map<VolumeName, VolumeState>

  const Unknown := VolumeState(false, "", "")

  // The zero value a Go map read gives for a missing key.
  function At(vols: Volumes, name: VolumeName): VolumeState {
    if name in vols then vols[name] else Unknown
  }

  /* ----- The three sources, as membership ----- */

  predicate InSpec(spec: seq<SpecVolume>, name: VolumeName) {
    exists i | 0 <= i < |spec| :: spec[i].name == name
  }

  predicate Queued(requests: seq<Request>, name: VolumeName) {
    exists i | 0 <= i < |requests| :: requests[i].Add? && requests[i].name == name
  }

  predicate Reported(status: seq<VolumeStatus>, name: VolumeName) {
    exists i | 0 <= i < |status| :: status[i].name == name
  }

  lemma SpecHead(spec: seq<SpecVolume>, x: VolumeName)
    requires spec != []
    ensures InSpec(spec, x) <==> spec[0].name == x || InSpec(spec[1..], x)
  {
    if InSpec(spec, x) {
      var i :| 0 <= i < |spec| && spec[i].name == x;
      assert i > 0 ==> spec[1..][i - 1].name == x;
    }
    if InSpec(spec[1..], x) {
      var i :| 0 <= i < |spec[1..]| && spec[1..][i].name == x;
      assert spec[i + 1].name == x;
    }
  }

  lemma ReportedHead(status: seq<VolumeStatus>, y: VolumeName)
    requires status != []
    ensures Reported(status, y) <==> status[0].name == y || Reported(status[1..], y)
  {
    if Reported(status, y) {
      var i :| 0 <= i < |status| && status[i].name == y;
      assert i > 0 ==> status[1..][i - 1].name == y;
    }
    if Reported(status[1..], y) {
      var i :| 0 <= i < |status[1..]| && status[1..][i].name == y;
      assert status[i + 1].name == y;
    }
  }

  /* ----- The merge, one source at a time ----- */

  function PutSpec(vols: Volumes, v: SpecVolume): Volumes {
    if v.name == NoName then vols else vols[v.name := VolumeState(true, "", v.claim)]
  }

  function PutRequest(vols: Volumes, r: Request): Volumes {
    if !r.Add? || r.name == NoName then vols else
    var st := At(vols, r.name);
    vols[r.name := VolumeState(true, st.phase, if st.claim == "" then r.claim else st.claim)]
  }

  function PutStatus(vols: Volumes, s: VolumeStatus): Volumes {
    if s.name == NoName then vols else vols[s.name := At(vols, s.name).(phase := s.phase)]
  }

  function FromSpec(spec: seq<SpecVolume>): Volumes {
    if spec == [] then map[] else PutSpec(FromSpec(spec[..|spec| - 1]), spec[|spec| - 1])
  }

  function WithRequests(vols: Volumes, requests: seq<Request>): Volumes {
    if requests == [] then vols
    else PutRequest(WithRequests(vols, requests[..|requests| - 1]), requests[|requests| - 1])
  }

  function WithStatus(vols: Volumes, status: seq<VolumeStatus>): Volumes {
    if status == [] then vols
    else PutStatus(WithStatus(vols, status[..|status| - 1]), status[|status| - 1])
  }

  function FromMachine(spec: seq<SpecVolume>, requests: seq<Request>): Volumes {
    WithRequests(FromSpec(spec), requests)
  }

  function FromMachines(vms: seq<VirtualMachine>): map<string, Volumes> {
    if vms == [] then map[]
    else
      var vm := vms[|vms| - 1];
      FromMachines(vms[..|vms| - 1])[vm.name := FromMachine(vm.spec, vm.requests)]
  }

  function WithInstances(out: map<string, Volumes>, vmis: seq<Instance>): map<string, Volumes> {
    if vmis == [] then out
    else
      var rest := WithInstances(out, vmis[..|vmis| - 1]);
      var vmi := vmis[|vmis| - 1];
      // An instance without a VirtualMachine is skipped rather than invented.
      if vmi.name in rest then rest[vmi.name := WithStatus(rest[vmi.name], vmi.status)] else rest
  }

  /** One listing of a namespace: spec, queued requests and instance status merged. */
  method VMs(vms: seq<VirtualMachine>, vmis: seq<Instance>) returns (out: map<string, Volumes>)
    ensures out == WithInstances(FromMachines(vms), vmis)
  {
    out := map[];
    assert vms[..0] == [];
    for i := 0 to |vms|
      invariant out == FromMachines(vms[..i])
    {
      var vm := vms[i];
      var vols: Volumes := map[];
      assert vm.spec[..0] == [];
      for j := 0 to |vm.spec|
        invariant vols == FromSpec(vm.spec[..j])
      {
        assert vm.spec[..j + 1][..j] == vm.spec[..j];
        if vm.spec[j].name != NoName {
          vols := vols[vm.spec[j].name := VolumeState(true, "", vm.spec[j].claim)];
        }
      }
      assert vm.spec[..|vm.spec|] == vm.spec;
      assert vm.requests[..0] == [];
      for j := 0 to |vm.requests|
        invariant vols == WithRequests(FromSpec(vm.spec), vm.requests[..j])
      {
        assert vm.requests[..j + 1][..j] == vm.requests[..j];
        var rq := vm.requests[j];
        if rq.Add? && rq.name != NoName {
          var st := At(vols, rq.name);
          st := st.(inSpec := true);
          if st.claim == "" {
            st := st.(claim := rq.claim);
          }
          vols := vols[rq.name := st];
        }
      }
      assert vm.requests[..|vm.requests|] == vm.requests;
      assert vms[..i + 1][..i] == vms[..i];
      out := out[vm.name := vols];
    }
    assert vms[..|vms|] == vms;
    assert vmis[..0] == [];
    for i := 0 to |vmis|
      invariant out == WithInstances(FromMachines(vms), vmis[..i])
    {
      var vmi := vmis[i];
      assert vmis[..i + 1][..i] == vmis[..i];
      if vmi.name in out {
        var vols := out[vmi.name];
        assert vmi.status[..0] == [];
        for j := 0 to |vmi.status|
          invariant vols == WithStatus(out[vmi.name], vmi.status[..j])
        {
          assert vmi.status[..j + 1][..j] == vmi.status[..j];
          var s := vmi.status[j];
          if s.name != NoName {
            vols := vols[s.name := At(vols, s.name).(phase := s.phase)];
          }
        }
        assert vmi.status[..|vmi.status|] == vmi.status;
        out := out[vmi.name := vols];
      }
    }
    assert vmis[..|vmis|] == vmis;
  }

  /* ----- What the merge means ----- */

  // The claim of the last spec entry of that name; "" when there is none.
  function SpecClaim(spec: seq<SpecVolume>, name: VolumeName): string {
    if spec == [] then ""
    else if spec[|spec| - 1].name == name then spec[|spec| - 1].claim
    else SpecClaim(spec[..|spec| - 1], name)
  }

  // The first non-empty claim among the queued adds of that name.
  function QueuedClaim(requests: seq<Request>, name: VolumeName): string {
    if requests == [] then ""
    else if requests[0].Add? && requests[0].name == name && requests[0].claim != "" then requests[0].claim
    else QueuedClaim(requests[1..], name)
  }

  function LastPhase(status: seq<VolumeStatus>, name: VolumeName): string {
    if status == [] then ""
    else if status[|status| - 1].name == name then status[|status| - 1].phase
    else LastPhase(status[..|status| - 1], name)
  }

  lemma {:induction false} SpecMerged(spec: seq<SpecVolume>, name: VolumeName)
    requires name != NoName
    ensures name in FromSpec(spec) <==> InSpec(spec, name)
    ensures name in FromSpec(spec) ==> FromSpec(spec)[name] == VolumeState(true, "", SpecClaim(spec, name))
    ensures !InSpec(spec, name) ==> SpecClaim(spec, name) == ""
  {
    if spec != [] {
      var n := |spec| - 1;
      SpecMerged(spec[..n], name);
      if InSpec(spec, name) && spec[n].name != name {
        var i :| 0 <= i < |spec| && spec[i].name == name;
        assert spec[..n][i].name == name;
      }
    }
  }

  lemma {:induction false} QueuedClaimSplit(requests: seq<Request>, name: VolumeName)
    requires requests != []
    ensures var n := |requests| - 1;
            QueuedClaim(requests, name) ==
            var before := QueuedClaim(requests[..n], name);
            if before != "" then before
            else if requests[n].Add? && requests[n].name == name then requests[n].claim else ""
  {
    var n := |requests| - 1;
    if n > 0 {
      assert requests[1..][..n - 1] == requests[..n][1..];
      QueuedClaimSplit(requests[1..], name);
    }
  }

  lemma {:induction false} RequestsMerged(vols: Volumes, requests: seq<Request>, name: VolumeName)
    requires name != NoName
    ensures var out := WithRequests(vols, requests);
            && (name in out <==> name in vols || Queued(requests, name))
            && At(out, name).inSpec == (At(vols, name).inSpec || Queued(requests, name))
            && At(out, name).phase == At(vols, name).phase
            && At(out, name).claim
               == if At(vols, name).claim != "" then At(vols, name).claim else QueuedClaim(requests, name)
  {
    if requests != [] {
      var n := |requests| - 1;
      RequestsMerged(vols, requests[..n], name);
      QueuedClaimSplit(requests, name);
      if Queued(requests, name) && !(requests[n].Add? && requests[n].name == name) {
        var i :| 0 <= i < |requests| && requests[i].Add? && requests[i].name == name;
        assert requests[..n][i].name == name;
      }
    }
  }

  lemma {:induction false} StatusMerged(vols: Volumes, status: seq<VolumeStatus>, name: VolumeName)
    requires name != NoName
    ensures var out := WithStatus(vols, status);
            && (name in out <==> name in vols || Reported(status, name))
            && At(out, name).inSpec == At(vols, name).inSpec
            && At(out, name).claim == At(vols, name).claim
            && (Reported(status, name) ==> At(out, name).phase == LastPhase(status, name))
            && (!Reported(status, name) ==> At(out, name).phase == At(vols, name).phase)
  {
    if status != [] {
      var n := |status| - 1;
      StatusMerged(vols, status[..n], name);
      if Reported(status, name) && status[n].name != name {
        var i :| 0 <= i < |status| && status[i].name == name;
        assert status[..n][i].name == name;
      }
    }
  }

  /** The merge for one VM and its instance: a volume is visible iff some source names it, a
      queued add counts as spec, the spec's claim comes before the queue's, the last phase
      wins, and a claim is known only together with InSpec. */
  lemma MergeMeaning(spec: seq<SpecVolume>, requests: seq<Request>, status: seq<VolumeStatus>, name: VolumeName)
    requires name != NoName
    ensures var out := WithStatus(FromMachine(spec, requests), status);
            && (name in out <==> InSpec(spec, name) || Queued(requests, name) || Reported(status, name))
            && At(out, name).inSpec == (InSpec(spec, name) || Queued(requests, name))
            && At(out, name).phase == LastPhase(status, name)
            && At(out, name).claim
               == (if SpecClaim(spec, name) != "" then SpecClaim(spec, name) else QueuedClaim(requests, name))
            && (At(out, name).claim != "" ==> At(out, name).inSpec)
  {
    SpecMerged(spec, name);
    RequestsMerged(FromSpec(spec), requests, name);
    StatusMerged(FromMachine(spec, requests), status, name);
    QueuedClaimNeedsAdd(requests, name);
    LastPhaseNeedsStatus(status, name);
  }

  lemma {:induction false} QueuedClaimNeedsAdd(requests: seq<Request>, name: VolumeName)
    ensures QueuedClaim(requests, name) != "" ==> Queued(requests, name)
  {
    if requests != [] && !(requests[0].Add? && requests[0].name == name) {
      QueuedClaimNeedsAdd(requests[1..], name);
      if Queued(requests[1..], name) {
        var i :| 0 <= i < |requests[1..]| && requests[1..][i].Add? && requests[1..][i].name == name;
        assert requests[i + 1].name == name;
      }
    }
  }

  lemma {:induction false} LastPhaseNeedsStatus(status: seq<VolumeStatus>, name: VolumeName)
    ensures !Reported(status, name) ==> LastPhase(status, name) == ""
  {
    if status != [] {
      LastPhaseNeedsStatus(status[..|status| - 1], name);
      if Reported(status[..|status| - 1], name) {
        var i :| 0 <= i < |status| - 1 && status[..|status| - 1][i].name == name;
        assert status[i].name == name;
      }
    }
  }

  /** Whole listings, with the API server's unique names: every VM is listed, nothing else is,
      and each volume's entry is the merge of that VM with its own instance, if any. */
  ghost predicate UniqueNames(vms: seq<VirtualMachine>, vmis: seq<Instance>) {
    && (forall i, j | 0 <= i < j < |vms| :: vms[i].name != vms[j].name)
    && (forall i, j | 0 <= i < j < |vmis| :: vmis[i].name != vmis[j].name)
  }

  lemma {:induction false} MachinesListed(vms: seq<VirtualMachine>, i: nat)
    requires i < |vms| && UniqueNames(vms, [])
    ensures vms[i].name in FromMachines(vms)
    ensures FromMachines(vms)[vms[i].name] == FromMachine(vms[i].spec, vms[i].requests)
  {
    if i < |vms| - 1 {
      MachinesListed(vms[..|vms| - 1], i);
    }
  }

  lemma {:induction false} OnlyMachinesListed(vms: seq<VirtualMachine>, name: string)
    ensures name in FromMachines(vms) <==> exists i | 0 <= i < |vms| :: vms[i].name == name
  {
    if vms != [] {
      var n := |vms| - 1;
      OnlyMachinesListed(vms[..n], name);
      if i :| 0 <= i < |vms| && vms[i].name == name {
        assert i < n ==> vms[..n][i].name == name;
      }
    }
  }

  lemma {:induction false} InstancesMerged(out: map<string, Volumes>, vmis: seq<Instance>, name: string)
    requires UniqueNames([], vmis)
    ensures WithInstances(out, vmis).Keys == out.Keys
    ensures (name in out && forall k | 0 <= k < |vmis| :: vmis[k].name != name) ==>
              WithInstances(out, vmis)[name] == out[name]
    ensures forall k | 0 <= k < |vmis| && name in out && vmis[k].name == name
              :: WithInstances(out, vmis)[name] == WithStatus(out[name], vmis[k].status)
  {
    if vmis != [] {
      InstancesMerged(out, vmis[..|vmis| - 1], name);
    }
  }

  // What the instance of a VM reports; nothing if there is none.
  function StatusOf(vmis: seq<Instance>, name: string): seq<VolumeStatus> {
    if vmis == [] then []
    else if vmis[|vmis| - 1].name == name then vmis[|vmis| - 1].status
    else StatusOf(vmis[..|vmis| - 1], name)
  }

  lemma {:induction false} StatusIsOf(vmis: seq<Instance>, name: string, k: nat)
    requires UniqueNames([], vmis) && k < |vmis| && vmis[k].name == name
    ensures StatusOf(vmis, name) == vmis[k].status
  {
    if k < |vmis| - 1 { StatusIsOf(vmis[..|vmis| - 1], name, k); }
  }

  lemma {:induction false} NoStatus(vmis: seq<Instance>, name: string)
    requires forall k | 0 <= k < |vmis| :: vmis[k].name != name
    ensures StatusOf(vmis, name) == []
  {
    if vmis != [] { NoStatus(vmis[..|vmis| - 1], name); }
  }

  // One listed machine, with its instance's status or none.
  lemma MachineListed(vms: seq<VirtualMachine>, vmis: seq<Instance>, i: nat)
    requires i < |vms| && UniqueNames(vms, vmis)
    ensures vms[i].name in WithInstances(FromMachines(vms), vmis)
    ensures WithInstances(FromMachines(vms), vmis)[vms[i].name]
            == WithStatus(FromMachine(vms[i].spec, vms[i].requests), StatusOf(vmis, vms[i].name))
  {
    MachinesListed(vms, i);
    InstancesMerged(FromMachines(vms), vmis, vms[i].name);
    if k :| 0 <= k < |vmis| && vmis[k].name == vms[i].name {
      StatusIsOf(vmis, vms[i].name, k);
    } else {
      NoStatus(vmis, vms[i].name);
    }
  }

  /** The property the protocol rests on, for every listing: a volume shows up on a VM iff one of the
      three sources names it there, it counts as desired iff spec or queue hold it, the spec's claim comes
      before the queue's, and its phase is the last one the VM's own instance reports. */
  lemma ListingMeaning(vms: seq<VirtualMachine>, vmis: seq<Instance>, i: nat, name: VolumeName)
    requires i < |vms| && UniqueNames(vms, vmis) && name != NoName
    ensures var out, vm := WithInstances(FromMachines(vms), vmis), vms[i]; var status := StatusOf(vmis, vm.name);
            && vm.name in out
            && (name in out[vm.name] <==> InSpec(vm.spec, name) || Queued(vm.requests, name) || Reported(status, name))
            && At(out[vm.name], name).inSpec == (InSpec(vm.spec, name) || Queued(vm.requests, name))
            && At(out[vm.name], name).claim
               == (if SpecClaim(vm.spec, name) != "" then SpecClaim(vm.spec, name) else QueuedClaim(vm.requests, name))
            && (At(out[vm.name], name).claim != "" ==> At(out[vm.name], name).inSpec)
            && At(out[vm.name], name).phase == LastPhase(status, name)
    ensures forall k | 0 <= k < |vmis| && vmis[k].name == vms[i].name :: StatusOf(vmis, vms[i].name) == vmis[k].status
  {
    hide WithInstances, WithStatus, FromMachine, FromMachines, StatusOf;
    MachineListed(vms, vmis, i);
    MergeMeaning(vms[i].spec, vms[i].requests, StatusOf(vmis, vms[i].name), name);
    forall k | 0 <= k < |vmis| && vmis[k].name == vms[i].name ensures StatusOf(vmis, vms[i].name) == vmis[k].status {
      StatusIsOf(vmis, vms[i].name, k);
    }
  }
}
