/** The calls the pass issues for one attachment or one claim, as values: what
    internal/syncer/storage_pass.go does when every call takes effect. */
module StoragePlan {
  import opened Hotplug
  import opened StorageMachine
  import opened Wrappers

  // reconcileAttachment, without the status write that waits for write-back.
  function AttachmentPlan(p: View, a: string): seq<Call>
    requires a in p.vas
  {
    var va := p.vas[a];
    if va.vol !in p.pvs then
      if va.deleting && va.pinned then [UnpinZombie(a)] else []
    else if va.deleting then
      if !Shows(p, va.node, va.vol) then if va.pinned then [UnpinVa(a)] else []
      else if Seen(p, va.node, va.vol).inSpec then [RemoveForVa(a)] else []
    else
      var vol := Seen(p, va.node, va.vol);
      (if va.pinned then [] else [PinVa(a)])
      + if va.node in p.snap && !vol.inSpec && vol.phase == "" then [AddVolume(a)] else []
  }

  // Whether reconcileAttachment goes on to report the attachment as attached.
  predicate Reports(p: View, a: string)
    requires a in p.vas
  {
    var va := p.vas[a];
    va.vol in p.pvs && !va.deleting && va.node in p.snap && Seen(p, va.node, va.vol).phase == READY
  }

  // Whether it reports that no VM backs the attachment's node.
  predicate Unbacked(p: View, a: string)
    requires a in p.vas
  {
    var va := p.vas[a];
    va.vol in p.pvs && !va.deleting && va.node !in p.snap
  }

  // The status it asks to be written, if any.
  function Verdict(p: View, a: string): Option<Status>
    requires a in p.vas
  {
    if Reports(p, a) then Some(AttachedStatus(p.vas[a].vol))
    else if Unbacked(p, a) then Some(UnbackedStatus(p.vas[a].node))
    else None
  }

  // provisionPVC, given whether the host PVC can be made (or already is) ours.
  function ProvisionPlan(p: View, v: Volume): seq<Call>
    requires v in p.claims
  {
    if v in p.hosts then if v in p.pvs then [] else [CreatePV(v)]
    else if !p.claims[v].scheduled then []
    else [CreateHost(v)] + if v in p.pvs then [] else [CreatePV(v)]
  }

  // What teardownGuestPVC deletes once the volume is off every VM.
  function TeardownPlan(p: View, v: Volume): seq<Call> {
    (if v in p.hosts then [DeleteHost(v)] else []) + (if v in p.pvs then [DeletePV(v)] else [])
  }

  /* ----- What the listings call for ----- */

  // Whether one attachment calls for a call, read off the listings alone; `pvs` are the PVs known when
  // attachments are served, those made in the same pass included.
  predicate Called(p: View, pvs: set<Volume>, a: string, c: Call)
    requires a in p.vas
  {
    var va := p.vas[a];
    var shown := va.node in p.snap && NameFor(va.vol) in p.snap[va.node];
    var inSpec := shown && p.snap[va.node][NameFor(va.vol)].inSpec;
    var quiet := shown ==> p.snap[va.node][NameFor(va.vol)].phase == "";
    match c
    case RemoveForVa(b) => b == a && va.vol in pvs && va.deleting && inSpec
    case UnpinVa(b) => b == a && va.vol in pvs && va.deleting && va.pinned && !shown
    case UnpinZombie(b) => b == a && va.vol !in pvs && va.deleting && va.pinned
    case PinVa(b) => b == a && va.vol in pvs && !va.deleting && !va.pinned
    case AddVolume(b) => b == a && va.vol in pvs && !va.deleting && va.node in p.snap && !inSpec && quiet
    case _ => false
  }

  // Whether a provisionable claim calls for a call.
  predicate MakingCalled(p: View, v: Volume, c: Call)
    requires v in p.claims
  {
    match c
    case CreateHost(u) => u == v && v !in p.hosts && p.claims[v].scheduled
    case CreatePV(u) => u == v && v !in p.pvs && (v in p.hosts || p.claims[v].scheduled)
    case _ => false
  }

  // Whether a volume that is to go calls for a call: off every VM first, and then its disk and its PV.
  predicate RemovalCalled(p: View, v: Volume, c: Call) {
    match c
    case Unplug(u, n) => u == v && n in p.snap && NameFor(v) in p.snap[n] && p.snap[n][NameFor(v)].inSpec
    case DeleteHost(u) => u == v && v in p.hosts && forall n | n in p.snap :: NameFor(v) !in p.snap[n]
    case DeletePV(u) => u == v && v in p.pvs && forall n | n in p.snap :: NameFor(v) !in p.snap[n]
    case _ => false
  }

  /** The calls of a deleting attachment: out of the VM while the VM has it in its spec, released once no
      VM shows it or its PV is gone; of an active one: pinned, and into the VM unless it is there or on
      its way. And no others. */
  lemma AttachmentCalls(p: View, a: string, c: Call)
    requires a in p.vas
    ensures c in AttachmentPlan(p, a) <==> Called(p, p.pvs, a, c)
  {
  }

  lemma ProvisionCalls(p: View, v: Volume, c: Call)
    requires v in p.claims
    ensures c in ProvisionPlan(p, v) <==> MakingCalled(p, v, c)
  {
  }

  // Everything the listed attachments call for was done.
  ghost predicate Served(p: View, pvs: set<Volume>, calls: seq<Call>) {
    forall a, c | a in p.vas && Called(p, pvs, a, c) :: c in calls
  }

  // And everything the provisionable claims do.
  ghost predicate Provided(p: View, calls: seq<Call>) {
    forall v, c | Provisionable(p, v) && MakingCalled(p, v, c) :: c in calls
  }

  // And everything the deleting claims do, and the host PVCs whose claim is gone.
  ghost predicate TornDown(p: View, calls: seq<Call>) {
    && (forall v, c | TeardownReady(p, v) && RemovalCalled(p, v, c) :: c in calls)
    && (forall v, c | Orphan(p, v) && RemovalCalled(p, v, c) && !c.DeletePV? :: c in calls)
  }

  lemma RemovalCalls(p: View, v: Volume, c: Call)
    ensures Clear(p, v) ==> (c in TeardownPlan(p, v) <==> RemovalCalled(p, v, c))
    ensures !Clear(p, v) && RemovalCalled(p, v, c) ==> c.Unplug? && c.v == v && c.n in p.snap && Seen(p, c.n, v).inSpec
  {
  }

  // What is called for depends on the listings alone.
  lemma SameCalled(p: View, q: View)
    requires q == p.(stage := q.stage, tried := q.tried, made := q.made, gone := q.gone, pvGone := q.pvGone)
    ensures forall v, c :: RemovalCalled(q, v, c) == RemovalCalled(p, v, c)
    ensures forall v :: Orphan(q, v) == Orphan(p, v) && TeardownReady(q, v) == TeardownReady(p, v)
  {
    forall v ensures Named(q, v) == Named(p, v) {}
  }

  lemma ServedMore(p: View, pvs: set<Volume>, calls: seq<Call>, more: seq<Call>)
    requires Served(p, pvs, calls) && forall c | c in calls :: c in more
    ensures Served(p, pvs, more)
  {
  }

  lemma ProvidedMore(p: View, calls: seq<Call>, more: seq<Call>)
    requires Provided(p, calls) && forall c | c in calls :: c in more
    ensures Provided(p, more)
  {
  }

  // Every active attachment with a PV is reported as the VM of its node has it: attached, under the serial
  // of its volume, if the VM shows it Ready; in error, and not attached, if there is no VM.
  ghost predicate AllReported(p: View, pvs: set<Volume>, vas: map<string, Attachment>) {
    forall a | a in p.vas && p.vas[a].vol in pvs && !p.vas[a].deleting ::
      var v, n := p.vas[a].vol, p.vas[a].node;
      && (n !in p.snap ==> a in vas && !vas[a].status.attached && vas[a].status.serial == None && vas[a].status.error.Some?)
      && (n in p.snap && NameFor(v) in p.snap[n] && p.snap[n][NameFor(v)].phase == READY ==>
            a in vas && vas[a].status.attached && vas[a].status.serial == Some(Serial(v)) && vas[a].status.error == None)
  }

  // Every claim that carries our finalizer for nothing loses it: a deleting one that no attachment names
  // and no VM shows, and one that is not provisioned here.
  ghost predicate AllReleased(p: View, calls: seq<Call>) {
    forall v | v in p.claims && p.claims[v].pinned
               && (if p.claims[v].deleting
                   then (forall a | a in p.vas :: p.vas[a].vol != v) && forall n | n in p.snap :: NameFor(v) !in p.snap[n]
                   else !Provisionable(p, v)) ::
      UnpinClaim(v) in calls
  }

  // A pass that did everything its listings call for.
  ghost predicate Thorough(p: View, pvs: set<Volume>, calls: seq<Call>, vas: map<string, Attachment>) {
    && (forall v | Provisionable(p, v) :: PinClaim(v) in calls)
    && Provided(p, calls) && Served(p, pvs, calls) && TornDown(p.(pvs := pvs), calls)
    && AllReported(p, pvs, vas) && AllReleased(p, calls)
  }
}
