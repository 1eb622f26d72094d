/** The storage attach/move/delete protocol of internal/syncer/storage_pass.go as a state machine
    over its four parties: the syncer, which acts on listings taken earlier in the pass; KubeVirt,
    which works off its queue in its own time; the guest's attach/detach controller; the tenant.
    Every API call is one step, so the other parties may move between any two calls.

    A volume is identified by the name of its host PVC. The guest claim (by UID), its PV
    ("pvc-" + UID, whose handle is that name) and the hotplug volume (NameFor) are in bijection with
    it; module Names proves the part of that which is string handling. */
module StorageMachine {
  import opened Hotplug
  import opened Wrappers

  type Volume = string
  type Node = string

  datatype Claim = Claim(cls: Option<string>, mappable: bool, scheduled: bool, deleting: bool, pinned: bool)
  // The status of a VolumeAttachment: the serial under which a node finds the disk, or the node that no VM
  // backs, which is all its error says.
  datatype Status = Status(attached: bool, serial: Option<Serial>, error: Option<Node>)
  const Blank := Status(false, None, None)

  function AttachedStatus(v: Volume): Status {
    Status(true, Some(Serial(v)), None)
  }

  function UnbackedStatus(n: Node): Status {
    Status(false, None, Some(n))
  }

  datatype Attachment = Attachment(vol: Volume, node: Node, deleting: bool, pinned: bool, status: Status)
  datatype Machine = Machine(spec: seq<SpecVolume>, requests: seq<Request>, status: seq<VolumeStatus>)

  function ReportedReady(va: Attachment): Attachment {
    va.(status := AttachedStatus(va.vol))
  }

  function ReportedUnbacked(va: Attachment): Attachment {
    va.(status := UnbackedStatus(va.node))
  }

  // The live stores. `used` and `deleted` are history: every UID ever created, and every host PVC
  // the syncer has deleted.
  datatype World = World(
    claims: map<Volume, Claim>, used: set<Volume>,
    pvs: set<Volume>, vas: map<string, Attachment>,
    offered: set<string>, hostPVCs: set<Volume>, foreign: set<Volume>, deleted: set<Volume>,
    vms: map<Node, Machine>)

  // The stages of gatherStorage, in the order of its list calls, then applying, and then pruning and what
  // comes after it.
  const IDLE := 0
  const GOT_CLAIMS := 1
  const GOT_PVS := 2
  const GOT_VAS := 3
  const GOT_CLASSES := 4
  const GOT_HOSTS := 5
  const GOT_VMS := 6
  const RUNNING := 7
  const PRUNING := 8

  // The pass's own state: its listings, and what it did since.
  datatype View = View(
    stage: nat,
    claims: map<Volume, Claim>, pvs: set<Volume>, vas: map<string, Attachment>,
    offered: set<string>, hosts: set<Volume>, snap: map<Node, Volumes>,
    tried: set<Volume>, made: set<Volume>, gone: set<Volume>, pvGone: set<Volume>)

  const NoView := View(IDLE, map[], {}, map[], {}, {}, map[], {}, {}, {}, {})

  datatype Sys = Sys(w: World, p: View)

  // The tenant, and the guest's own controllers.
  datatype GuestStep =
    | ClaimCreate(v: Volume, cls: Option<string>, mappable: bool)
    | ClaimSchedule(v: Volume) | ClaimDelete(v: Volume) | ClaimVanish(v: Volume)
    | VaCreate(a: string, v: Volume, n: Node) | VaDelete(a: string) | VaVanish(a: string)

  // The host operator, and other users of the host namespace.
  datatype HostStep =
    | Offer(c: string) | Unoffer(c: string)
    | ForeignCreate(v: Volume) | ForeignDelete(v: Volume)
    // somebody else deletes a host PVC of ours
    | HostLost(v: Volume)
    | VmCreate(n: Node, spec: seq<SpecVolume>) | VmDelete(n: Node)

  // KubeVirt, on one VM.
  datatype KvStep =
    | Apply(i: nat) | Observe(name: VolumeName, phase: string)
    | Progress(i: nat, phase: string) | Drop(name: VolumeName)

  // The list calls of a pass, the start of pruning, and its end.
  datatype Listing = ListClaims | ListPVs | ListVAs | ListClasses | ListHosts | ListVMs | ListVMIs | StartPrune | EndPass

  // The syncer's API calls, when they take effect.
  datatype Call =
    | PinClaim(v: Volume) | PinClaimFails(v: Volume)
    | CreateHost(v: Volume) | CreatePV(v: Volume)
    | PinVa(a: string) | AddVolume(a: string) | Report(a: string) | ReportNoVm(a: string)
    | RemoveForVa(a: string) | UnpinVa(a: string) | UnpinZombie(a: string)
    | Unplug(v: Volume, n: Node) | DeleteHost(v: Volume) | DeletePV(v: Volume)
    | Sweep(n: Node, v: Volume) | UnpinClaim(v: Volume)

  datatype Step =
    | Guest(g: GuestStep) | Host(h: HostStep) | Kube(n: Node, k: KvStep)
    | List(l: Listing) | Syncer(c: Call)

  /* ----- What the pass reads off its listings ----- */

  predicate Provisionable(p: View, v: Volume) {
    && v in p.claims && !p.claims[v].deleting
    && p.claims[v].cls.Some? && p.claims[v].cls.value in p.offered && p.claims[v].mappable
  }

  // Some listed VolumeAttachment names the volume's PV.
  predicate Named(p: View, v: Volume) {
    exists a | a in p.vas :: p.vas[a].vol == v
  }

  predicate Shows(p: View, n: Node, v: Volume) {
    n in p.snap && NameFor(v) in p.snap[n]
  }

  function Seen(p: View, n: Node, v: Volume): VolumeState {
    if n in p.snap then At(p.snap[n], NameFor(v)) else Unknown
  }

  // No VM in the snapshot carries the volume at any stage.
  predicate Clear(p: View, v: Volume) {
    forall n | n in p.snap :: NameFor(v) !in p.snap[n]
  }

  // A deleting claim that carries our finalizer and that no listed attachment refers to.
  predicate TeardownReady(p: View, v: Volume) {
    v in p.claims && p.claims[v].deleting && p.claims[v].pinned && !Named(p, v)
  }

  predicate Orphan(p: View, v: Volume) {
    v in p.hosts && v !in p.claims
  }

  predicate TeardownDone(p: View, v: Volume) {
    && TeardownReady(p, v) && Clear(p, v)
    && (v in p.hosts ==> v in p.gone) && (v in p.pvs ==> v in p.pvGone)
  }

  predicate Working(p: View, a: string) {
    a in p.vas && p.vas[a].vol in p.pvs
  }

  /* ----- The guest ----- */

  predicate GuestEnabled(w: World, t: GuestStep) {
    match t
    case ClaimCreate(v, _, _) => v !in w.used
    case ClaimSchedule(v) => v in w.claims
    case ClaimDelete(v) => v in w.claims
    case ClaimVanish(v) => v in w.claims && w.claims[v].deleting && !w.claims[v].pinned
    case VaCreate(a, v, _) =>
      // the attach/detach controller's multi-attach guard
      && a !in w.vas && (forall b | b in w.vas :: w.vas[b].vol != v)
      && v in w.pvs && v in w.claims && !w.claims[v].deleting
    case VaDelete(a) => a in w.vas
    case VaVanish(a) => a in w.vas && w.vas[a].deleting && !w.vas[a].pinned
  }

  function GuestDo(w: World, t: GuestStep): World
    requires GuestEnabled(w, t)
  {
    match t
    case ClaimCreate(v, cls, mappable) =>
      w.(claims := w.claims[v := Claim(cls, mappable, false, false, false)], used := w.used + {v})
    case ClaimSchedule(v) => w.(claims := w.claims[v := w.claims[v].(scheduled := true)])
    case ClaimDelete(v) => w.(claims := w.claims[v := w.claims[v].(deleting := true)])
    case ClaimVanish(v) => w.(claims := w.claims - {v})
    case VaCreate(a, v, n) => w.(vas := w.vas[a := Attachment(v, n, false, false, Blank)])
    case VaDelete(a) => w.(vas := w.vas[a := w.vas[a].(deleting := true)])
    case VaVanish(a) => w.(vas := w.vas - {a})
  }

  /* ----- The host ----- */

  predicate HostEnabled(w: World, t: HostStep) {
    match t
    case ForeignCreate(v) => v !in w.hostPVCs
    // only the syncer adds volumes of ours; a new VM comes with other people's
    case VmCreate(n, spec) => n !in w.vms && forall i | 0 <= i < |spec| :: !spec[i].name.Csi?
    case VmDelete(n) => n in w.vms
    case HostLost(v) => v in w.hostPVCs
    case _ => true
  }

  function HostDo(w: World, t: HostStep): World
    requires HostEnabled(w, t)
  {
    match t
    case Offer(c) => w.(offered := w.offered + {c})
    case Unoffer(c) => w.(offered := w.offered - {c})
    case ForeignCreate(v) => w.(foreign := w.foreign + {v})
    case ForeignDelete(v) => w.(foreign := w.foreign - {v})
    case HostLost(v) => w.(hostPVCs := w.hostPVCs - {v})
    case VmCreate(n, spec) => w.(vms := w.vms[n := Machine(spec, [], [])])
    case VmDelete(n) => w.(vms := w.vms - {n})
  }

  /* ----- KubeVirt ----- */

  predicate KvEnabled(m: Machine, t: KvStep) {
    match t
    case Apply(i) => i < |m.requests|
    case Observe(name, _) => InSpec(m.spec, name)
    case Progress(i, _) => i < |m.status|
    case Drop(name) => !InSpec(m.spec, name)
  }

  function Without(spec: seq<SpecVolume>, name: VolumeName): seq<SpecVolume> {
    if spec == [] then []
    else if spec[0].name == name then Without(spec[1..], name)
    else [spec[0]] + Without(spec[1..], name)
  }

  function Unreported(status: seq<VolumeStatus>, name: VolumeName): seq<VolumeStatus> {
    if status == [] then []
    else if status[0].name == name then Unreported(status[1..], name)
    else [status[0]] + Unreported(status[1..], name)
  }

  // virt-controller takes one request off the queue and applies it to the spec.
  function Applied(m: Machine, i: nat): Machine
    requires i < |m.requests|
  {
    var rest := m.requests[..i] + m.requests[i + 1..];
    match m.requests[i]
    case Add(name, claim) =>
      Machine(if InSpec(m.spec, name) then m.spec else m.spec + [SpecVolume(name, claim)], rest, m.status)
    case Remove(name) => Machine(Without(m.spec, name), rest, m.status)
  }

  function KvDo(m: Machine, t: KvStep): Machine
    requires KvEnabled(m, t)
  {
    match t
    case Apply(i) => Applied(m, i)
    case Observe(name, phase) =>
      if Reported(m.status, name) then m else m.(status := m.status + [VolumeStatus(name, phase)])
    case Progress(i, phase) => m.(status := m.status[i := m.status[i].(phase := phase)])
    case Drop(name) => m.(status := Unreported(m.status, name))
  }

  /* ----- The syncer's gather ----- */

  predicate ListEnabled(p: View, t: Listing) {
    match t
    case ListClaims => p.stage == IDLE
    case ListPVs => p.stage == GOT_CLAIMS
    case ListVAs => p.stage == GOT_PVS
    case ListClasses => p.stage == GOT_VAS
    case ListHosts => p.stage == GOT_CLASSES
    case ListVMs => p.stage == GOT_HOSTS
    case ListVMIs => p.stage == GOT_VMS
    case StartPrune => p.stage == RUNNING
    case EndPass => true
  }

  function ListDo(w: World, p: View, t: Listing): View
    requires ListEnabled(p, t)
  {
    match t
    case ListClaims => NoView.(stage := GOT_CLAIMS, claims := w.claims)
    case ListPVs => p.(stage := GOT_PVS, pvs := w.pvs)
    case ListVAs => p.(stage := GOT_VAS, vas := w.vas)
    case ListClasses => p.(stage := GOT_CLASSES, offered := w.offered)
    case ListHosts => p.(stage := GOT_HOSTS, hosts := w.hostPVCs)
    case ListVMs =>
      p.(stage := GOT_VMS, snap := map n | n in w.vms :: FromMachine(w.vms[n].spec, w.vms[n].requests))
    case ListVMIs =>
      p.(stage := RUNNING,
         snap := map n | n in p.snap ::
           if n in w.vms then WithStatus(p.snap[n], w.vms[n].status) else p.snap[n])
    case StartPrune => p.(stage := PRUNING)
    case EndPass => NoView
  }

  /* ----- The syncer's calls ----- */

  // The calls of the part of a pass that applies.
  predicate Applying(t: Call) {
    || t.PinClaim? || t.PinClaimFails? || t.CreateHost? || t.CreatePV?
    || t.PinVa? || t.AddVolume? || t.RemoveForVa? || t.UnpinVa? || t.UnpinZombie?
  }

  // What the code has established from its listings, and its own earlier calls, before it issues
  // a call.
  predicate Warranted(p: View, t: Call) {
    p.stage == (if Applying(t) then RUNNING else PRUNING) &&
    match t
    case PinClaim(v) => Provisionable(p, v)
    case PinClaimFails(v) => Provisionable(p, v)
    case CreateHost(v) => v in p.tried && Provisionable(p, v) && v !in p.hosts && p.claims[v].scheduled
    case CreatePV(v) =>
      v in p.tried && Provisionable(p, v) && (v in p.hosts || v in p.made) && v !in p.pvs
    case PinVa(a) => Working(p, a) && !p.vas[a].deleting && !p.vas[a].pinned
    case AddVolume(a) =>
      && Working(p, a) && !p.vas[a].deleting && p.vas[a].pinned && p.vas[a].node in p.snap
      && !Seen(p, p.vas[a].node, p.vas[a].vol).inSpec && Seen(p, p.vas[a].node, p.vas[a].vol).phase == ""
    case Report(a) =>
      && Working(p, a) && !p.vas[a].deleting && p.vas[a].pinned && p.vas[a].node in p.snap
      && Seen(p, p.vas[a].node, p.vas[a].vol).phase == READY
    case ReportNoVm(a) =>
      Working(p, a) && !p.vas[a].deleting && p.vas[a].pinned && p.vas[a].node !in p.snap
    case RemoveForVa(a) =>
      Working(p, a) && p.vas[a].deleting && Seen(p, p.vas[a].node, p.vas[a].vol).inSpec
    case UnpinVa(a) =>
      Working(p, a) && p.vas[a].deleting && p.vas[a].pinned && !Shows(p, p.vas[a].node, p.vas[a].vol)
    case UnpinZombie(a) => a in p.vas && p.vas[a].vol !in p.pvs && p.vas[a].deleting && p.vas[a].pinned
    case Unplug(v, n) => (TeardownReady(p, v) || Orphan(p, v)) && Seen(p, n, v).inSpec
    case DeleteHost(v) => (TeardownReady(p, v) || Orphan(p, v)) && Clear(p, v) && v in p.hosts
    case DeletePV(v) => TeardownReady(p, v) && Clear(p, v) && (v in p.hosts ==> v in p.gone) && v in p.pvs
    case Sweep(n, v) => Seen(p, n, v).claim == v && v != "" && Seen(p, n, v).inSpec
    case UnpinClaim(v) =>
      && v in p.claims && p.claims[v].pinned
      && (if p.claims[v].deleting then TeardownDone(p, v) else !Provisionable(p, v))
  }

  // When the API accepts the call. A write to a listed object lands only if it is still as listed;
  // a subresource call needs its VM; the sweep first checks, uncached, that no PVC has the name.
  predicate Lands(w: World, p: View, t: Call) {
    match t
    case CreateHost(v) => v !in w.foreign
    case PinVa(a) => Unchanged(w, p, a)
    case Report(a) => Unchanged(w, p, a)
    case ReportNoVm(a) => Unchanged(w, p, a)
    case UnpinVa(a) => Unchanged(w, p, a)
    case UnpinZombie(a) => Unchanged(w, p, a)
    case AddVolume(a) => a in p.vas && p.vas[a].node in w.vms
    case RemoveForVa(a) => a in p.vas && p.vas[a].node in w.vms
    case Unplug(_, n) => n in w.vms
    case Sweep(n, v) => n in w.vms && v !in w.hostPVCs && v !in w.foreign
    case UnpinClaim(v) => v in w.claims && v in p.claims && w.claims[v] == p.claims[v]
    case _ => true
  }

  predicate Unchanged(w: World, p: View, a: string) {
    a in p.vas && a in w.vas && w.vas[a] == p.vas[a]
  }

  predicate CallEnabled(w: World, p: View, t: Call) {
    Warranted(p, t) && Lands(w, p, t)
  }

  function Asked(w: World, n: Node, r: Request): World
    requires n in w.vms
  {
    w.(vms := w.vms[n := w.vms[n].(requests := w.vms[n].requests + [r])])
  }

  function CallWorld(w: World, p: View, t: Call): World
    requires CallEnabled(w, p, t)
  {
    match t
    case PinClaim(v) =>
      if v in w.claims && !w.claims[v].deleting
      then w.(claims := w.claims[v := w.claims[v].(pinned := true)]) else w
    case PinClaimFails(v) => w
    case CreateHost(v) => w.(hostPVCs := w.hostPVCs + {v})
    case CreatePV(v) => w.(pvs := w.pvs + {v})
    case PinVa(a) => w.(vas := w.vas[a := w.vas[a].(pinned := true)])
    case AddVolume(a) => Asked(w, p.vas[a].node, Add(NameFor(p.vas[a].vol), p.vas[a].vol))
    case Report(a) => w.(vas := w.vas[a := ReportedReady(w.vas[a])])
    case ReportNoVm(a) => w.(vas := w.vas[a := ReportedUnbacked(w.vas[a])])
    case RemoveForVa(a) => Asked(w, p.vas[a].node, Remove(NameFor(p.vas[a].vol)))
    case UnpinVa(a) => w.(vas := w.vas[a := w.vas[a].(pinned := false)])
    case UnpinZombie(a) => w.(vas := w.vas[a := w.vas[a].(pinned := false)])
    case Unplug(v, n) => Asked(w, n, Remove(NameFor(v)))
    case DeleteHost(v) =>
      if v in w.hostPVCs then w.(hostPVCs := w.hostPVCs - {v}, deleted := w.deleted + {v}) else w
    case DeletePV(v) => w.(pvs := w.pvs - {v})
    case Sweep(n, v) => Asked(w, n, Remove(NameFor(v)))
    case UnpinClaim(v) => w.(claims := w.claims[v := w.claims[v].(pinned := false)])
  }

  // What the pass remembers of its own calls.
  function CallView(p: View, t: Call): View {
    match t
    case PinClaim(v) => p.(tried := p.tried + {v})
    case PinClaimFails(v) => p.(tried := p.tried + {v})
    case CreateHost(v) => p.(made := p.made + {v})
    case CreatePV(v) => p.(pvs := p.pvs + {v})
    case PinVa(a) => if a in p.vas then p.(vas := p.vas[a := p.vas[a].(pinned := true)]) else p
    case Report(a) => if a in p.vas then p.(vas := p.vas[a := ReportedReady(p.vas[a])]) else p
    case ReportNoVm(a) => if a in p.vas then p.(vas := p.vas[a := ReportedUnbacked(p.vas[a])]) else p
    case DeleteHost(v) => p.(gone := p.gone + {v})
    case DeletePV(v) => p.(pvGone := p.pvGone + {v})
    case _ => p
  }

  /* ----- The whole system ----- */

  predicate Enabled(s: Sys, t: Step) {
    match t
    case Guest(g) => GuestEnabled(s.w, g)
    case Host(h) => HostEnabled(s.w, h)
    case Kube(n, k) => n in s.w.vms && KvEnabled(s.w.vms[n], k)
    case List(l) => ListEnabled(s.p, l)
    case Syncer(c) => CallEnabled(s.w, s.p, c)
  }

  function Do(s: Sys, t: Step): Sys
    requires Enabled(s, t)
  {
    match t
    case Guest(g) => s.(w := GuestDo(s.w, g))
    case Host(h) => s.(w := HostDo(s.w, h))
    case Kube(n, k) => s.(w := s.w.(vms := s.w.vms[n := KvDo(s.w.vms[n], k)]))
    case List(l) => s.(p := ListDo(s.w, s.p, l))
    case Syncer(c) => Sys(CallWorld(s.w, s.p, c), CallView(s.p, c))
  }

  // The assumptions on the other parties beyond their own rules: the operator keeps a class
  // offered while a claim uses it, nobody else deletes host PVCs of ours, and finalizer writes on live
  // claims succeed.
  predicate Good(s: Sys, t: Step) {
    && (t.Host? && t.h.Unoffer? ==> forall v | v in s.w.claims :: s.w.claims[v].cls != Some(t.h.c))
    && !(t.Host? && t.h.HostLost?) && !(t.Syncer? && t.c.PinClaimFails?)
  }

  const Empty := Sys(World(map[], {}, {}, map[], {}, {}, {}, {}, map[]), NoView)

  /* ----- Runs ----- */

  // A run from the empty state: the state after each step of a schedule.
  ghost predicate Runs(sched: seq<Step>, states: seq<Sys>) {
    && |states| == |sched| + 1
    && states[0] == Empty
    && forall i | 0 <= i < |sched| :: Enabled(states[i], sched[i]) && states[i + 1] == Do(states[i], sched[i])
  }

  ghost predicate GoodRun(sched: seq<Step>, states: seq<Sys>) {
    && Runs(sched, states)
    && forall i | 0 <= i < |sched| :: Good(states[i], sched[i])
  }
}
