/** Deleting a TenantCluster as a state machine, internal/syncer/tenantcluster_controller.go and the
    storage half of it in storage_pass.go. Every API call of a teardown pass is one move, and KubeVirt
    and the other users of the host namespace may move between any two; a call that fails is no move. */
module TeardownMachine {
  import opened Hotplug
  import opened StorageMachine
  import opened StorageCore
  import opened Wrappers

  // A volume on a VM.
  type Removal = (Node, VolumeName)

  datatype Stage = Idle | GotPVCs | GotVMs | Ready

  // One pass: what it has listed, and what came of its calls. `missing` and `present` are the volumes
  // whose claim it looked for; `taken` is history, the claims it found that were somebody else's.
  datatype Pass = Pass(
    stage: Stage, listed: set<string>, snap: map<Node, Volumes>,
    asked: set<Removal>, gone: set<string>, present: set<Removal>, missing: set<Removal>, taken: set<string>,
    rest: Option<set<string>>, cleared: set<string>)

  const NoPass := Pass(Idle, {}, map[], {}, {}, {}, {}, {}, None, {})

  // The host namespace: the VMs, the PVCs carrying the tenant's labels, everybody else's PVCs, and the
  // tenant's labelled Services, Ingresses, Gateways and HTTPRoutes. `mine` are all PVC names ever made for
  // the tenant; `hotplug` says whether a hotplug client is configured. Neither changes.
  datatype State = State(
    mine: set<string>, hotplug: bool,
    vms: map<Node, Machine>, owned: set<string>, foreign: set<string>, others: set<string>,
    released: bool, pass: Pass)

  datatype Move =
    | KubeVirt(n: Node, k: KvStep)
    // other users, among them other tenants with volumes of the same naming scheme
    | Foreign(pvcs: set<string>) | VmLost(n: Node) | VmMade(n: Node, spec: seq<SpecVolume>)
    | VmAsked(n: Node, r: Request) | Nothing
    // the list calls of a pass; GetNone stands for having no hotplug client
    | GetPVCs | GetVMs | GetVMIs | GetNone | GetOthers
    | Detach(v: string, n: Node) | DeletePVC(v: string)
    | ReadClaim(n: Node, name: VolumeName) | Purge(n: Node, name: VolumeName)
    | DeleteOther(o: string) | Release | Stop

  function Names(mine: set<string>): set<VolumeName> {
    set v | v in mine :: NameFor(v)
  }

  /* ----- What a pass reads off its listings ----- */

  predicate ShownOn(p: Pass, n: Node, name: VolumeName) {
    n in p.snap && name in p.snap[n]
  }

  function SeenOn(p: Pass, n: Node, name: VolumeName): VolumeState {
    if n in p.snap then At(p.snap[n], name) else Unknown
  }

  predicate Attached(p: Pass, v: string) {
    exists n | n in p.snap :: NameFor(v) in p.snap[n]
  }

  // A volume this controller made: its name derives from its claim.
  predicate Derived(p: Pass, n: Node, name: VolumeName) {
    ShownOn(p, n, name) && p.snap[n][name].claim != "" && NameFor(p.snap[n][name].claim) == name
  }

  // Nothing is left: the finalizer may drop.
  ghost predicate Done(p: Pass) {
    && p.stage == Ready
    && (forall v | v in p.listed :: !Attached(p, v) && v in p.gone)
    && (forall n, name | Derived(p, n, name) :: (n, name) in p.present)
    && p.rest.Some? && p.rest.value <= p.cleared
  }

  // Everything the pass had to do was done, and no call failed.
  ghost predicate Complete(p: Pass) {
    && p.stage == Ready
    && (forall v | v in p.listed :: if Attached(p, v) then AllAsked(p, v) else v in p.gone)
    && (forall n, name | Derived(p, n, name) :: Looked(p, n, name))
    && p.rest.Some? && p.rest.value <= p.cleared
  }

  ghost predicate AllAsked(p: Pass, v: string) {
    forall n | SeenOn(p, n, NameFor(v)).inSpec :: (n, NameFor(v)) in p.asked
  }

  // The claim of a derived volume was looked for, and if it is gone the VM was asked to let go.
  predicate Looked(p: Pass, n: Node, name: VolumeName) {
    (n, name) in p.present || ((n, name) in p.missing && (SeenOn(p, n, name).inSpec ==> (n, name) in p.asked))
  }

  /* ----- The moves ----- */

  predicate OthersCan(s: State, t: Move) {
    match t
    case VmLost(n) => n in s.vms
    case VmMade(n, spec) => n !in s.vms && forall i | 0 <= i < |spec| :: spec[i].name !in Names(s.mine)
    case VmAsked(n, r) => n in s.vms && r.name !in Names(s.mine)
    case _ => t.Foreign? || t.Nothing?
  }

  // What the code has established before it issues a call.
  predicate Due(p: Pass, hotplug: bool, released: bool, t: Move) {
    match t
    case GetPVCs => p.stage == Idle && !released
    case GetVMs => p.stage == GotPVCs && hotplug
    case GetVMIs => p.stage == GotVMs
    case GetNone => p.stage == GotPVCs && !hotplug && p.listed == {}
    case GetOthers => p.stage == Ready
    case Detach(v, n) => p.stage == Ready && v in p.listed && SeenOn(p, n, NameFor(v)).inSpec
    case DeletePVC(v) => p.stage == Ready && v in p.listed && !Attached(p, v)
    case ReadClaim(n, name) => p.stage == Ready && Derived(p, n, name)
    case Purge(n, name) => p.stage == Ready && (n, name) in p.missing && SeenOn(p, n, name).inSpec
    case DeleteOther(o) => p.stage == Ready && p.rest.Some? && o in p.rest.value
    case _ => t.Stop?
  }

  // A subresource call needs its VM.
  predicate Accepted(vms: map<Node, Machine>, t: Move) {
    match t
    case Detach(_, n) => n in vms
    case Purge(n, _) => n in vms
    case _ => true
  }

  ghost predicate Can(s: State, t: Move) {
    match t
    case KubeVirt(n, k) => n in s.vms && KvEnabled(s.vms[n], k)
    case Release => Done(s.pass)
    case _ => OthersCan(s, t) || (Due(s.pass, s.hotplug, s.released, t) && Accepted(s.vms, t))
  }

  function Asking(s: State, n: Node, r: Request): map<Node, Machine>
    requires n in s.vms
  {
    s.vms[n := s.vms[n].(requests := s.vms[n].requests + [r])]
  }

  function Looking(s: State, n: Node, name: VolumeName): Pass
    requires Derived(s.pass, n, name)
  {
    var p, claim := s.pass, s.pass.snap[n][name].claim;
    if claim in s.owned + s.foreign
    then p.(present := p.present + {(n, name)}, taken := p.taken + if claim in s.foreign then {claim} else {})
    else p.(missing := p.missing + {(n, name)})
  }

  function Make(s: State, t: Move): State
    requires Can(s, t)
  {
    var p := s.pass;
    match t
    case KubeVirt(n, k) => s.(vms := s.vms[n := KvDo(s.vms[n], k)])
    case Foreign(pvcs) => s.(foreign := pvcs)
    case VmLost(n) => s.(vms := s.vms - {n})
    case VmMade(n, spec) => s.(vms := s.vms[n := Machine(spec, [], [])])
    case VmAsked(n, r) => s.(vms := Asking(s, n, r))
    case Nothing => s
    case GetPVCs => s.(pass := NoPass.(stage := GotPVCs, listed := s.owned))
    case GetVMs =>
      s.(pass := p.(stage := GotVMs, snap := map n | n in s.vms :: FromMachine(s.vms[n].spec, s.vms[n].requests)))
    case GetVMIs =>
      s.(pass := p.(stage := Ready,
         snap := map n | n in p.snap :: if n in s.vms then WithStatus(p.snap[n], s.vms[n].status) else p.snap[n]))
    case GetNone => s.(pass := p.(stage := Ready))
    case GetOthers => s.(pass := p.(rest := Some(s.others), cleared := {}))
    case Detach(v, n) =>
      s.(vms := Asking(s, n, Remove(NameFor(v))), pass := p.(asked := p.asked + {(n, NameFor(v))}))
    case DeletePVC(v) => s.(owned := s.owned - {v}, pass := p.(gone := p.gone + {v}))
    case ReadClaim(n, name) => s.(pass := Looking(s, n, name))
    case Purge(n, name) => s.(vms := Asking(s, n, Remove(name)), pass := p.(asked := p.asked + {(n, name)}))
    case DeleteOther(o) => s.(others := s.others - {o}, pass := p.(cleared := p.cleared + {o}))
    case Release => s.(released := true, pass := NoPass)
    case Stop => s.(pass := NoPass)
  }

  // A teardown starts with whatever KubeVirt and the namespace hold.
  predicate Start(s: State) {
    s.pass == NoPass && s.owned <= s.mine
  }

  ghost predicate TeardownRun(moves: seq<Move>, states: seq<State>) {
    && |states| == |moves| + 1 && Start(states[0])
    && forall i | 0 <= i < |moves| :: Can(states[i], moves[i]) && states[i + 1] == Make(states[i], moves[i])
  }

  /* ----- Volumes of ours only go away ----- */

  // A VM has the volume in its spec or queue, or carries it in any way.
  predicate WantedOn(vms: map<Node, Machine>, n: Node, v: string) {
    n in vms && Wanted(vms[n], NameFor(v))
  }

  lemma AskingAddsNone(s: State, n: Node, r: Request, m: Node, v: string)
    requires n in s.vms && (r.Remove? || r.name != NameFor(v))
    ensures WantedOn(Asking(s, n, r), m, v) ==> WantedOn(s.vms, m, v)
    ensures Carried(Asking(s, n, r), m, v) ==> Carried(s.vms, m, v)
  {
    var vms' := Asking(s, n, r);
    if m == n && Queued(vms'[m].requests, NameFor(v)) {
      var i :| 0 <= i < |vms'[m].requests| && vms'[m].requests[i].Add? && vms'[m].requests[i].name == NameFor(v);
      assert i < |s.vms[m].requests| && s.vms[m].requests[i] == vms'[m].requests[i];
    }
  }

  lemma NoneMade(spec: seq<SpecVolume>, name: VolumeName)
    requires forall i | 0 <= i < |spec| :: spec[i].name != name
    ensures !Carries(Machine(spec, [], []), name)
  {
  }

  /** Teardown plugs nothing in, and nobody else plugs in volumes of ours: each is only ever taken further
      out of a VM. */
  lemma NothingNew(s: State, t: Move, n: Node, v: string)
    requires Can(s, t) && v in s.mine
    ensures WantedOn(Make(s, t).vms, n, v) ==> WantedOn(s.vms, n, v)
    ensures Carried(Make(s, t).vms, n, v) ==> Carried(s.vms, n, v)
  {
    hide Carries, Wanted, KvDo;
    assert NameFor(v) in Names(s.mine);
    match t {
      case KubeVirt(m, k) => KvShrinks(s.vms[m], k);
      case VmMade(m, spec) => if m == n { NoneMade(spec, NameFor(v)); CarriedIfWanted(Machine(spec, [], []), NameFor(v)); }
      case VmAsked(m, r) => AskingAddsNone(s, m, r, n, v);
      case Detach(u, m) => AskingAddsNone(s, m, Remove(NameFor(u)), n, v);
      case Purge(m, name) => AskingAddsNone(s, m, Remove(name), n, v);
      case _ =>
    }
  }

  lemma CarriedIfWanted(m: Machine, name: VolumeName)
    ensures Wanted(m, name) ==> Carries(m, name)
  {
  }
}
