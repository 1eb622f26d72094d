/** The storage slice of a pass as it is written, internal/syncer/storage_pass.go: methods that
    change the pass's state and issue API calls, with the other parties moving before every call.
    Any call may fail, finalizer writes and listings included, and the pass goes on as the source does.
    Each method is proved to issue only calls the protocol of module StorageMachine allows, and to
    issue exactly the calls its case asks for; so every state these methods go through is a state
    of a run, and what modules StorageSafety and StorageGuard prove of all runs holds of it. */
module StoragePass {
  import opened Hotplug
  import opened StorageMachine
  import opened StoragePlan
  import opened Wrappers

  // The syncer's calls in a schedule, in order.
  function CallsOf(sched: seq<Step>): seq<Call> {
    if sched == [] then []
    else
      var t := sched[|sched| - 1];
      CallsOf(sched[..|sched| - 1]) + if t.Syncer? then [t.c] else []
  }

  lemma CallsOfExtended(sched: seq<Step>, t: Step)
    ensures CallsOf(sched + [t]) == CallsOf(sched) + if t.Syncer? then [t.c] else []
  {
    assert (sched + [t])[..|sched|] == sched;
  }

  // The plan was issued from its start; all of it, unless something went wrong.
  predicate Issued(before: seq<Call>, after: seq<Call>, plan: seq<Call>, clean: bool) {
    exists k | 0 <= k <= |plan| :: after == before + plan[..k] && (clean ==> k == |plan|)
  }

  lemma IssuedPrefix(before: seq<Call>, after: seq<Call>, plan: seq<Call>, clean: bool)
    requires Issued(before, after, plan, clean)
    ensures before <= after
  {
  }

  // A plan issued in full shows up among the calls since any earlier point.
  lemma IssuedAll(start: seq<Call>, before: seq<Call>, after: seq<Call>, plan: seq<Call>, clean: bool)
    requires start <= before && Issued(before, after, plan, clean)
    ensures start <= after && forall c | c in before[|start|..] :: c in after[|start|..]
    ensures clean ==> forall c | c in plan :: c in after[|start|..]
  {
    var k :| 0 <= k <= |plan| && after == before + plan[..k] && (clean ==> k == |plan|);
    assert after[|start|..] == before[|start|..] + plan[..k];
    assert plan[..|plan|] == plan;
  }

  // In terms of what an attachment calls for: it was done, and nothing else.
  lemma PlanIssued(p: View, a: string, before: seq<Call>, after: seq<Call>, clean: bool)
    requires a in p.vas && Issued(before, after, AttachmentPlan(p, a), clean)
    ensures before <= after && forall c | c in after[|before|..] :: Called(p, p.pvs, a, c)
    ensures clean ==> forall c | Called(p, p.pvs, a, c) :: c in after[|before|..]
  {
    hide AttachmentPlan, Called;
    var plan := AttachmentPlan(p, a);
    var k :| 0 <= k <= |plan| && after == before + plan[..k] && (clean ==> k == |plan|);
    assert after[|before|..] == plan[..k] && plan[..|plan|] == plan;
    forall c ensures c in plan <==> Called(p, p.pvs, a, c) { AttachmentCalls(p, a, c); }
  }

  // All plans issued is all served.
  lemma PlansServed(p: View, calls: seq<Call>)
    requires forall a, c | a in p.vas && c in AttachmentPlan(p, a) :: c in calls
    ensures Served(p, p.pvs, calls)
  {
    hide AttachmentPlan, Called;
    forall a, c | a in p.vas && Called(p, p.pvs, a, c) ensures c in calls { AttachmentCalls(p, a, c); }
  }

  // In terms of what a volume that is to go calls for.
  lemma RemovalIssued(p: View, v: Volume, calls: seq<Call>, more: seq<Call>, all: seq<Call>, clear: bool)
    requires clear <==> Clear(p, v)
    requires !clear ==> Unplugs(more, p, v, p.snap.Keys, true)
    requires clear ==> forall c | c in TeardownPlan(p, v) && !c.DeletePV? :: c in more
    requires all == calls + more
    ensures forall c | RemovalCalled(p, v, c) && !c.DeletePV? :: c in all
    ensures clear && (forall c | c in TeardownPlan(p, v) :: c in more) ==> forall c | RemovalCalled(p, v, c) :: c in all
    ensures !clear ==> forall c | RemovalCalled(p, v, c) :: c in all
  {
    hide RemovalCalled, TeardownPlan, Clear;
    forall c ensures RemovalCalled(p, v, c) ==> if clear then c in TeardownPlan(p, v) else c.Unplug? && c.v == v && c.n in p.snap && Seen(p, c.n, v).inSpec {
      RemovalCalls(p, v, c);
    }
  }

  // Prune's own bookkeeping changes none of the conditions it decides by.
  lemma PruneKeepsListing(p: View, q: View)
    requires q == p.(stage := q.stage, gone := q.gone, pvGone := q.pvGone) && p.gone <= q.gone && p.pvGone <= q.pvGone
    ensures forall v :: TeardownReady(q, v) == TeardownReady(p, v) && Clear(q, v) == Clear(p, v) && Orphan(q, v) == Orphan(p, v)
    ensures forall v :: TeardownDone(p, v) ==> TeardownDone(q, v)
    ensures forall v :: Provisionable(q, v) == Provisionable(p, v)
  {
    forall v ensures Named(q, v) == Named(p, v) && Clear(q, v) == Clear(p, v) {}
  }

  lemma PruneKeepsVerdicts(p: View, q: View)
    requires q == p.(stage := q.stage, gone := q.gone, pvGone := q.pvGone)
    ensures forall a | a in p.vas :: Verdict(q, a) == Verdict(p, a)
  {
  }

  // The unplug calls for v among a set of nodes.
  ghost predicate Unplugs(calls: seq<Call>, p: View, v: Volume, nodes: set<Node>, complete: bool) {
    && (forall i | 0 <= i < |calls| :: calls[i].Unplug? && calls[i].v == v && calls[i].n in nodes && Seen(p, calls[i].n, v).inSpec)
    && (complete ==> forall n | n in nodes && Seen(p, n, v).inSpec :: Unplug(v, n) in calls)
  }

  lemma UnplugsNone(p: View, v: Volume)
    ensures Unplugs([], p, v, {}, true)
  {
  }

  lemma UnplugsGrow(calls: seq<Call>, p: View, v: Volume, nodes: set<Node>, n: Node, more: seq<Call>, complete: bool, clean: bool)
    requires Unplugs(calls, p, v, nodes, complete) && n !in nodes
    requires more == [] || (more == [Unplug(v, n)] && Seen(p, n, v).inSpec)
    requires clean ==> complete && (Seen(p, n, v).inSpec ==> more != [])
    ensures Unplugs(calls + more, p, v, nodes + {n}, clean)
  {
    assert more != [] ==> (calls + more)[|calls|] == Unplug(v, n);
    forall c | c in calls ensures c in calls + more {}
  }

  // vaStatusWrite
  datatype StatusWrite = StatusWrite(va: string, status: Status)

  // What writeBackStorage takes for the same: of an error it compares only whether there is one.
  predicate SameStatus(have: Status, want: Status) {
    have.attached == want.attached && have.serial == want.serial && (have.error.None? <==> want.error.None?)
  }

  // How gathering ends: with every listing, with the guest unreachable, or without the host's side.
  datatype Gathered = Listed | Unreachable | NoStorage

  class StorageSlice {
    var w: World
    var p: View
    // wantFinalizer, restricted to claims; vaStatus; the number of recorded problems
    var want: set<Volume>
    var reports: seq<StatusWrite>
    var problems: nat
    var pruneFailed: bool
    ghost var sched: seq<Step>
    ghost var states: seq<Sys>

    // All that has happened so far is a run of the protocol.
    ghost predicate Valid()
      reads this
    {
      Runs(sched, states) && states[|sched|] == Sys(w, p)
    }

    ghost function Calls(): seq<Call>
      reads this
    {
      CallsOf(sched)
    }

    ghost method Record(t: Step)
      requires Valid() && Enabled(Sys(w, p), t)
      modifies this`sched, this`states
      ensures sched == old(sched) + [t] && states == old(states) + [Do(Sys(w, p), t)]
      ensures Runs(sched, states)
      ensures CallsOf(sched) == old(CallsOf(sched)) + if t.Syncer? then [t.c] else []
    {
      CallsOfExtended(sched, t);
      states := states + [Do(Sys(w, p), t)];
      sched := sched + [t];
    }

    // Any number of steps of the guest, the host and KubeVirt.
    method Interfere()
      requires Valid()
      modifies this`w, this`sched, this`states
      ensures Valid() && Calls() == old(Calls())
    {
      var n: nat := *;
      while n > 0
        invariant Valid() && Calls() == old(Calls())
      {
        var t: Step := *;
        if (t.Guest? || t.Host? || t.Kube?) && Enabled(Sys(w, p), t) {
          Record(t);
          w := Do(Sys(w, p), t).w;
        }
        n := n - 1;
      }
    }

    // One API call. It may be refused, or fail for reasons of its own; then it has no effect.
    method Issue(c: Call) returns (ok: bool)
      requires Valid() && Warranted(p, c) && !c.PinClaimFails?
      modifies this`w, this`p, this`sched, this`states
      ensures Valid()
      ensures ok ==> p == CallView(old(p), c) && Calls() == old(Calls()) + [c]
      ensures !ok ==> p == old(p) && Calls() == old(Calls())
    {
      Interfere();
      ok := *;
      if ok && Lands(w, p, c) {
        Record(Syncer(c));
        var s := Do(Sys(w, p), Syncer(c));
        w, p := s.w, s.p;
      } else {
        ok := false;
      }
    }

    // A finalizer write on a claim. It fails if the claim is gone or going, and may fail anyway; the
    // pass goes on all the same.
    method PinClaim(v: Volume) returns (ok: bool)
      requires Valid() && Warranted(p, Call.PinClaim(v))
      modifies this`w, this`p, this`sched, this`states
      ensures Valid() && p == old(p).(tried := old(p.tried) + {v})
      ensures Calls() == old(Calls()) + [if ok then Call.PinClaim(v) else PinClaimFails(v)]
    {
      hide Runs;
      Interfere();
      ok := *;
      ok := ok && v in w.claims && !w.claims[v].deleting;
      var c := if ok then Call.PinClaim(v) else PinClaimFails(v);
      Record(Syncer(c));
      var s := Do(Sys(w, p), Syncer(c));
      w, p := s.w, s.p;
    }

    // A list call; or the start of pruning, or the end of the pass, which cannot fail.
    method ListNext(l: Listing) returns (ok: bool)
      requires Valid() && ListEnabled(p, l)
      modifies this`w, this`p, this`sched, this`states
      ensures Valid() && Calls() == old(Calls())
      ensures p == if ok then ListDo(w, old(p), l) else old(p)
      ensures l.EndPass? || l.StartPrune? ==> ok
    {
      hide Runs;
      Interfere();
      ok := *;
      ok := ok || l.EndPass? || l.StartPrune?;
      if ok {
        Record(List(l));
        p := ListDo(w, p, l);
      }
    }

    // The guest's objects.
    method GatherGuest() returns (ok: bool)
      requires Valid() && p.stage == IDLE
      modifies this`w, this`p, this`sched, this`states
      ensures Valid() && Calls() == old(Calls())
      ensures ok ==> p == NoView.(stage := GOT_VAS, claims := p.claims, pvs := p.pvs, vas := p.vas)
    {
      ok := ListNext(ListClaims);
      if ok { ok := ListNext(ListPVs); }
      if ok { ok := ListNext(ListVAs); }
    }

    // The host's objects, and the VMs with their instances.
    method GatherHost() returns (ok: bool)
      requires Valid() && p.stage == GOT_VAS
      modifies this`w, this`p, this`sched, this`states
      ensures Valid() && Calls() == old(Calls())
      ensures ok ==> p == old(p).(stage := RUNNING, offered := p.offered, hosts := p.hosts, snap := p.snap)
    {
      ok := ListNext(ListClasses);
      if ok { ok := ListNext(ListHosts); }
      if ok { ok := ListNext(ListVMs); }
      if ok { ok := ListNext(ListVMIs); }
    }

    /** gatherStorage: the listings, one call at a time, and the claims that are to be served. A guest
        listing that fails ends the whole pass; a host listing that fails is a problem, blocks every
        release, and leaves this pass without storage. */
    method Gather() returns (o: Gathered)
      requires Valid() && p.stage == IDLE
      modifies this
      ensures Valid() && Calls() == old(Calls())
      ensures o != Listed ==> p == NoView && want == {} && reports == []
      ensures o == Listed ==>
                && p.stage == RUNNING && p.tried == p.made == p.gone == p.pvGone == {}
                && want == (set v | v in p.claims && Provisionable(p, v)) && reports == []
      ensures if o == NoStorage then pruneFailed && problems == 1 else !pruneFailed && problems == 0
    {
      want, reports, pruneFailed, problems := {}, [], false, 0;
      var ok := GatherGuest();
      if !ok {
        var _ := ListNext(EndPass);
        return Unreachable;
      }
      ok := GatherHost();
      if !ok {
        problems, pruneFailed := problems + 1, true;
        var _ := ListNext(EndPass);
        return NoStorage;
      }
      want := set v | v in p.claims && Provisionable(p, v);
      return Listed;
    }

    /** ensureGuestFinalizers, for claims: a finalizer write for every wanted claim before anything is
        made; a failed one is a problem, and the claim is served without it. */
    method EnsurePins()
      requires Valid() && p.stage == RUNNING && p.tried == {}
      requires want == (set v | v in p.claims && Provisionable(p, v))
      modifies this`w, this`p, this`sched, this`states, this`problems
      ensures old(Calls()) <= Calls() && Valid() && p == old(p).(tried := want) && problems >= old(problems)
      ensures forall c | c in Calls()[|old(Calls())|..] :: (c.PinClaim? || c.PinClaimFails?) && c.v in want
      ensures forall v | v in want ::
                Call.PinClaim(v) in Calls()[|old(Calls())|..] || PinClaimFails(v) in Calls()[|old(Calls())|..]
      ensures problems == old(problems) <==> forall c | c in Calls()[|old(Calls())|..] :: c.PinClaim?
      ensures problems == old(problems) ==> forall v | v in want :: Call.PinClaim(v) in Calls()[|old(Calls())|..]
    {
      hide Runs;
      ghost var before := Calls();
      var todo := want;
      while todo != {}
        invariant Valid() && todo <= want && p == old(p).(tried := want - todo) && before <= Calls()
        invariant problems >= old(problems)
        invariant forall c | c in Calls()[|before|..] :: (c.PinClaim? || c.PinClaimFails?) && c.v in want
        invariant forall v | v in want - todo ::
                    Call.PinClaim(v) in Calls()[|before|..] || PinClaimFails(v) in Calls()[|before|..]
        invariant problems == old(problems) <==> forall c | c in Calls()[|before|..] :: c.PinClaim?
      {
        var v :| v in todo;
        ghost var sofar := Calls();
        var ok := PinClaim(v);
        if !ok { problems := problems + 1; }
        todo := todo - {v};
        ghost var c := if ok then Call.PinClaim(v) else PinClaimFails(v);
        assert Calls()[|before|..] == sofar[|before|..] + [c];
        assert c in Calls()[|before|..];
      }
    }

    /** provisionPVC: host PVC, then guest PV, once a node is picked. */
    method ProvisionPVC(v: Volume)
      requires Valid() && p.stage == RUNNING && Provisionable(p, v) && v in p.tried
      modifies this
      ensures Valid() && want == old(want) && reports == old(reports)
      ensures Issued(old(Calls()), Calls(), ProvisionPlan(old(p), v), problems == old(problems))
      ensures p == old(p).(made := p.made, pvs := p.pvs) && problems >= old(problems)
      ensures problems == old(problems) ==> pruneFailed == old(pruneFailed)
      ensures old(p.made) <= p.made <= old(p.made) + {v} && old(p.pvs) <= p.pvs <= old(p.pvs) + {v}
    {
      hide Runs, CallsOf;
      ghost var plan := ProvisionPlan(p, v);
      assert Calls() == Calls() + plan[..0];
      if v !in p.hosts {
        if !p.claims[v].scheduled {
          return;
        }
        assert plan[..1] == [CreateHost(v)];
        var ok := Issue(CreateHost(v));
        if !ok {
          // A failed call blocks pruning; a name taken by somebody else's PVC is only reported.
          var failed: bool := *;
          problems, pruneFailed := problems + 1, pruneFailed || failed;
          return;
        }
      }
      if v in p.pvs {
        return;
      }
      var ok := Issue(CreatePV(v));
      if !ok {
        problems := problems + 1;
        return;
      }
      assert plan[..|plan|] == plan;
    }

    // The case of reconcileAttachment for a deleting attachment of a volume whose PV is listed.
    method ReleaseAttachment(a: string)
      requires Valid() && p.stage == RUNNING && a in p.vas && p.vas[a].deleting && p.vas[a].vol in p.pvs
      modifies this
      ensures Valid() && want == old(want) && reports == old(reports) && p == old(p) && problems >= old(problems)
      ensures Issued(old(Calls()), Calls(), AttachmentPlan(p, a), problems == old(problems))
      ensures problems == old(problems) ==> pruneFailed == old(pruneFailed)
    {
      hide Runs, CallsOf;
      var va := p.vas[a];
      ghost var plan := AttachmentPlan(p, a);
      assert Calls() == Calls() + plan[..0];
      assert |plan| == 1 ==> plan[..1] == [plan[0]];
      if va.node !in p.snap || NameFor(va.vol) !in p.snap[va.node] {
        if va.pinned {
          var ok := Issue(UnpinVa(a));
          if !ok { problems := problems + 1; }
        }
      } else if p.snap[va.node][NameFor(va.vol)].inSpec {
        var ok := Issue(RemoveForVa(a));
        if !ok { problems, pruneFailed := problems + 1, true; }
        // The finalizer stays until a later pass sees the volume gone.
      }
    }

    // The case of an active one.
    method AttachVolume(a: string)
      requires Valid() && p.stage == RUNNING && a in p.vas && !p.vas[a].deleting && p.vas[a].vol in p.pvs
      modifies this
      ensures Valid() && want == old(want) && problems >= old(problems)
      ensures Issued(old(Calls()), Calls(), AttachmentPlan(old(p), a), problems == old(problems))
      ensures p == old(p) || p == CallView(old(p), PinVa(a))
      ensures problems == old(problems) ==> pruneFailed == old(pruneFailed)
      ensures reports == old(reports)
              || (p.vas[a].pinned && Verdict(old(p), a).Some? && reports == old(reports) + [StatusWrite(a, Verdict(old(p), a).value)])
      ensures problems == old(problems) ==> (reports != old(reports) <==> Verdict(old(p), a).Some?)
    {
      hide Runs, CallsOf;
      var va, vol := p.vas[a], Seen(p, p.vas[a].node, p.vas[a].vol);
      ghost var plan := AttachmentPlan(p, a);
      assert Calls() == Calls() + plan[..0];
      assert |plan| >= 1 ==> plan[..1] == [plan[0]];
      assert |plan| >= 2 ==> plan[..2] == [plan[0], plan[1]];
      if !va.pinned {
        var ok := Issue(PinVa(a));
        if !ok {
          problems := problems + 1;
          return;
        }
      }
      if va.node !in p.snap {
        reports := reports + [StatusWrite(a, UnbackedStatus(va.node))];
        return;
      }
      if !vol.inSpec && vol.phase == "" {
        var ok := Issue(AddVolume(a));
        if !ok {
          problems, pruneFailed := problems + 1, true;
          return;
        }
      }
      if vol.phase == READY {
        reports := reports + [StatusWrite(a, AttachedStatus(va.vol))];
      }
    }

    /** reconcileAttachment: towards attached for an active VolumeAttachment, towards released for a
        deleting one, deciding from this pass's snapshot. */
    method ReconcileAttachment(a: string)
      requires Valid() && p.stage == RUNNING && a in p.vas
      modifies this
      ensures Valid() && want == old(want) && problems >= old(problems)
      ensures old(Calls()) <= Calls() && forall c | c in Calls()[|old(Calls())|..] :: Called(old(p), old(p.pvs), a, c)
      ensures problems == old(problems) ==> forall c | Called(old(p), old(p.pvs), a, c) :: c in Calls()[|old(Calls())|..]
      ensures Issued(old(Calls()), Calls(), AttachmentPlan(old(p), a), problems == old(problems))
      ensures p == old(p) || p == CallView(old(p), PinVa(a))
      ensures problems == old(problems) ==> pruneFailed == old(pruneFailed)
      ensures reports == old(reports)
              || (p.vas[a].pinned && Verdict(old(p), a).Some? && reports == old(reports) + [StatusWrite(a, Verdict(old(p), a).value)])
      ensures problems == old(problems) ==> (reports != old(reports) <==> Verdict(old(p), a).Some?)
    {
      hide Runs, CallsOf, Called;
      var va := p.vas[a];
      if va.vol !in p.pvs {
        ghost var plan := AttachmentPlan(p, a);
        assert Calls() == Calls() + plan[..0] && (|plan| == 1 ==> plan[..1] == [plan[0]]);
        if va.deleting && va.pinned {
          var ok := Issue(UnpinZombie(a));
          if !ok { problems := problems + 1; }
        }
      } else if va.deleting {
        ReleaseAttachment(a);
      } else {
        AttachVolume(a);
      }
      PlanIssued(old(p), a, old(Calls()), Calls(), problems == old(problems));
    }

    // One VM of volumeUnplugged: asked to let go of a volume it has in its spec.
    method UnplugFrom(v: Volume, n: Node)
      requires Valid() && p.stage == PRUNING && (TeardownReady(p, v) || Orphan(p, v)) && Shows(p, n, v)
      modifies this
      ensures Valid() && p == old(p) && want == old(want) && reports == old(reports) && problems >= old(problems)
      ensures Calls() == old(Calls()) || (Seen(p, n, v).inSpec && Calls() == old(Calls()) + [Unplug(v, n)])
      ensures Seen(p, n, v).inSpec && problems == old(problems) ==> Calls() != old(Calls())
      ensures if problems == old(problems) then pruneFailed == old(pruneFailed) else pruneFailed
    {
      hide Runs, CallsOf;
      if p.snap[n][NameFor(v)].inSpec {
        var ok := Issue(Unplug(v, n));
        if !ok {
          problems, pruneFailed := problems + 1, true;
        }
      }
    }

    /** volumeUnplugged: whether no VM of the snapshot carries the volume, asking every VM that has
        it in its spec to let go. */
    method VolumeUnplugged(v: Volume) returns (clear: bool)
      requires Valid() && p.stage == PRUNING && (TeardownReady(p, v) || Orphan(p, v))
      modifies this
      ensures Valid() && p == old(p) && want == old(want) && reports == old(reports) && problems >= old(problems)
      ensures clear <==> Clear(p, v)
      ensures old(Calls()) <= Calls()
      ensures Unplugs(Calls()[|old(Calls())|..], p, v, p.snap.Keys, problems == old(problems))
      ensures clear ==> problems == old(problems) && Calls() == old(Calls())
      ensures problems == old(problems) ==> pruneFailed == old(pruneFailed)
      ensures old(pruneFailed) ==> pruneFailed
    {
      hide Runs, CallsOf, TeardownReady, Orphan, Unplugs;
      clear := true;
      UnplugsNone(p, v);
      assert Calls()[|Calls()|..] == [];
      var todo := p.snap.Keys;
      assert p.snap.Keys - todo == {};
      ghost var before := Calls();
      while todo != {}
        invariant Valid() && p == old(p) && want == old(want) && reports == old(reports)
        invariant todo <= p.snap.Keys && problems >= old(problems) && before <= Calls()
        invariant clear <==> forall n | n in p.snap.Keys - todo :: NameFor(v) !in p.snap[n]
        invariant Unplugs(Calls()[|before|..], p, v, p.snap.Keys - todo, problems == old(problems))
        invariant clear ==> problems == old(problems) && Calls() == before
        invariant problems == old(problems) ==> pruneFailed == old(pruneFailed)
        invariant old(pruneFailed) ==> pruneFailed
      {
        var n :| n in todo;
        ghost var done, sofar, clean := p.snap.Keys - todo, Calls(), problems == old(problems);
        todo := todo - {n};
        assert p.snap.Keys - todo == done + {n};
        if NameFor(v) in p.snap[n] {
          clear := false;
          UnplugFrom(v, n);
        }
        assert Calls()[|before|..] == sofar[|before|..] + Calls()[|sofar|..];
        UnplugsGrow(sofar[|before|..], p, v, done, n, Calls()[|sofar|..], clean, problems == old(problems));
      }
      assert p.snap.Keys - todo == p.snap.Keys;
    }

    /** deleteOwned on a host PVC: reports whether it succeeded. */
    method DeleteHostPVC(v: Volume)
      requires Valid() && Warranted(p, DeleteHost(v))
      modifies this
      ensures Valid() && want == old(want) && reports == old(reports) && problems >= old(problems)
      ensures (old(pruneFailed) ==> pruneFailed) && (problems != old(problems) ==> pruneFailed)
      ensures Issued(old(Calls()), Calls(), [DeleteHost(v)], problems == old(problems))
      ensures problems == old(problems) ==> p == CallView(old(p), DeleteHost(v)) && pruneFailed == old(pruneFailed)
      ensures problems != old(problems) ==> p == old(p)
    {
      ghost var plan := [DeleteHost(v)];
      assert Calls() == Calls() + plan[..0] && plan[..1] == plan;
      var ok := Issue(DeleteHost(v));
      if !ok {
        problems, pruneFailed := problems + 1, true;
      }
    }

    // The end of teardownGuestPVC, once the volume is off every VM.
    method DeleteRemains(v: Volume)
      requires Valid() && p.stage == PRUNING && TeardownReady(p, v) && Clear(p, v)
      modifies this
      ensures Valid() && reports == old(reports) && problems >= old(problems) && (old(pruneFailed) ==> pruneFailed)
      ensures p == old(p).(gone := p.gone, pvGone := p.pvGone)
      ensures old(p.gone) <= p.gone <= old(p.gone) + {v} && old(p.pvGone) <= p.pvGone <= old(p.pvGone) + {v}
      ensures Issued(old(Calls()), Calls(), TeardownPlan(old(p), v), problems == old(problems) && !old(pruneFailed))
      ensures old(want) <= want <= old(want) + {v}
      ensures v in want || TeardownDone(p, v)
      ensures problems != old(problems) ==> v in want
      ensures problems == old(problems) ==> pruneFailed == old(pruneFailed)
      ensures problems == old(problems) && !old(pruneFailed) ==> want == old(want)
    {
      hide Runs, CallsOf, Clear, Named;
      ghost var plan := TeardownPlan(p, v);
      assert Calls() == Calls() + plan[..0];
      if v in p.hosts {
        assert plan[..1] == [DeleteHost(v)];
        ghost var before := p;
        DeleteHostPVC(v);
        PruneKeepsListing(before, p);
        if pruneFailed {
          want := want + {v};
          return;
        }
      }
      if v in p.pvs {
        ghost var before := p;
        var ok := Issue(DeletePV(v));
        if !ok {
          problems := problems + 1;
          want := want + {v};
          return;
        }
        PruneKeepsListing(before, p);
      }
      assert plan[..|plan|] == plan;
    }

    lemma TeardownIssued(q: View, v: Volume, before: seq<Call>, after: seq<Call>)
      requires !Clear(q, v) ==> before <= after
      requires !Clear(q, v) ==> Unplugs(after[|before|..], q, v, q.snap.Keys, true)
      requires Clear(q, v) ==> Issued(before, after, TeardownPlan(q, v), true)
      ensures before <= after && forall c | RemovalCalled(q, v, c) :: c in after[|before|..]
    {
      hide RemovalCalled, TeardownPlan, Clear, Unplugs;
      if Clear(q, v) { IssuedAll(before, before, after, TeardownPlan(q, v), true); }
      RemovalIssued(q, v, [], after[|before|..], after[|before|..], Clear(q, v));
    }

    /** teardownGuestPVC: whatever step is ready for a deleting claim. The claim keeps its finalizer
        (is wanted) until everything made for it is gone. */
    method TeardownGuestPVC(v: Volume)
      requires Valid() && p.stage == PRUNING
      requires v in p.claims && p.claims[v].deleting && p.claims[v].pinned
      modifies this
      ensures Valid() && reports == old(reports) && problems >= old(problems) && (old(pruneFailed) ==> pruneFailed)
      ensures p == old(p).(gone := p.gone, pvGone := p.pvGone)
      ensures old(p.gone) <= p.gone <= old(p.gone) + {v} && old(p.pvGone) <= p.pvGone <= old(p.pvGone) + {v}
      ensures Named(p, v) ==> Calls() == old(Calls())
      ensures !Named(p, v) && !Clear(p, v) ==>
                && old(Calls()) <= Calls()
                && Unplugs(Calls()[|old(Calls())|..], p, v, p.snap.Keys, problems == old(problems))
      ensures !Named(p, v) && Clear(p, v) ==>
                Issued(old(Calls()), Calls(), TeardownPlan(old(p), v), problems == old(problems) && !old(pruneFailed))
      ensures old(Calls()) <= Calls()
      ensures !Named(p, v) && problems == old(problems) && !old(pruneFailed) ==>
                forall c | RemovalCalled(old(p), v, c) :: c in Calls()[|old(Calls())|..]
      // Kept in want exactly when there is work left.
      ensures old(want) <= want <= old(want) + {v}
      ensures v in want || TeardownDone(p, v)
      ensures Named(p, v) || !Clear(p, v) || problems != old(problems) ==> v in want
      ensures problems == old(problems) ==> pruneFailed == old(pruneFailed)
      ensures TeardownReady(p, v) && Clear(p, v) && problems == old(problems) && !old(pruneFailed) ==> want == old(want)
    {
      hide Runs, CallsOf, RemovalCalled, Unplugs, Issued, Clear, TeardownPlan;
      if exists a | a in p.vas :: p.vas[a].vol == v {
        want := want + {v};
        return;
      }
      var clear := VolumeUnplugged(v);
      if !clear {
        want := want + {v};
        if problems == old(problems) { TeardownIssued(p, v, old(Calls()), Calls()); }
        return;
      }
      DeleteRemains(v);
      IssuedPrefix(old(Calls()), Calls(), TeardownPlan(old(p), v), problems == old(problems) && !old(pruneFailed));
      PruneKeepsListing(old(p), p);
      if problems == old(problems) && !old(pruneFailed) { TeardownIssued(old(p), v, old(Calls()), Calls()); }
    }

    /** pruneStorage, first part: every deleting claim that carries our finalizer. */
    method TeardownClaims()
      requires Valid() && p.stage == PRUNING
      modifies this
      ensures old(Calls()) <= Calls()
      ensures Valid() && reports == old(reports) && problems >= old(problems) && (old(pruneFailed) ==> pruneFailed)
      ensures p == old(p).(gone := p.gone, pvGone := p.pvGone)
      ensures old(p.gone) <= p.gone && old(p.pvGone) <= p.pvGone
      ensures old(want) <= want
      ensures forall v | v in want && v !in old(want) :: v in p.claims && p.claims[v].deleting && p.claims[v].pinned
      ensures forall v | v in p.claims && p.claims[v].deleting && p.claims[v].pinned :: v in want || TeardownDone(p, v)
      ensures problems == old(problems) ==> pruneFailed == old(pruneFailed)
      ensures problems == old(problems) && !old(pruneFailed) ==>
                && (forall v | TeardownReady(p, v) && Clear(p, v) && v !in old(want) :: v !in want)
                && (forall v, c | TeardownReady(p, v) && RemovalCalled(p, v, c) :: c in Calls()[|old(Calls())|..])
    {
      hide Runs, CallsOf, Unplugs, Issued, Clear, Named, TeardownDone, Orphan, Provisionable, RemovalCalled, TeardownPlan;
      ghost var start := Calls();
      var todo := set v | v in p.claims && p.claims[v].deleting && p.claims[v].pinned;
      ghost var all := todo;
      while todo != {}
        invariant Valid() && reports == old(reports) && problems >= old(problems) && (old(pruneFailed) ==> pruneFailed)
        invariant p == old(p).(gone := p.gone, pvGone := p.pvGone) && old(Calls()) <= Calls()
        invariant old(p.gone) <= p.gone && old(p.pvGone) <= p.pvGone
        invariant todo <= all && old(want) <= want <= old(want) + (all - todo)
        invariant forall v | v in all - todo :: v in want || TeardownDone(p, v)
        invariant problems == old(problems) ==> pruneFailed == old(pruneFailed)
        invariant problems == old(problems) && !old(pruneFailed) ==>
                    forall v | TeardownReady(p, v) && Clear(p, v) && v !in old(want) :: v !in want
        invariant problems == old(problems) && !old(pruneFailed) ==>
                    forall v, c | v in all - todo && TeardownReady(p, v) && RemovalCalled(p, v, c) :: c in Calls()[|start|..]
      {
        var v :| v in todo;
        todo := todo - {v};
        ghost var before, sofar := p, Calls();
        TeardownGuestPVC(v);
        PruneKeepsListing(before, p);
        SameCalled(before, p);
        assert Calls()[|start|..] == sofar[|start|..] + Calls()[|sofar|..];
      }
    }

    // One host PVC whose claim is gone.
    method PruneOrphan(v: Volume)
      requires Valid() && p.stage == PRUNING && Orphan(p, v)
      modifies this
      ensures old(Calls()) <= Calls()
      ensures Valid() && want == old(want) && reports == old(reports) && problems >= old(problems)
      ensures (old(pruneFailed) ==> pruneFailed)
      ensures p == old(p).(gone := p.gone) && old(p.gone) <= p.gone
      ensures problems == old(problems) ==>
                && pruneFailed == old(pruneFailed) && (Clear(old(p), v) ==> v in p.gone)
                && (forall c | RemovalCalled(old(p), v, c) && !c.DeletePV? :: c in Calls()[|old(Calls())|..])
    {
      hide Runs, CallsOf, Unplugs, RemovalCalled, TeardownReady, Clear;
      ghost var start := Calls();
      var clear := VolumeUnplugged(v);
      if clear {
        ghost var sofar := Calls();
        DeleteHostPVC(v);
        if problems == old(problems) { IssuedAll(start, sofar, Calls(), [DeleteHost(v)], true); }
      }
      if problems == old(problems) {
        OrphanCalls(old(p), v);
        RemovalIssued(old(p), v, [], Calls()[|start|..], Calls()[|start|..], clear);
      }
    }

    lemma OrphanCalls(q: View, v: Volume)
      requires Orphan(q, v)
      ensures forall c | c in TeardownPlan(q, v) && !c.DeletePV? :: c == DeleteHost(v)
    {
    }

    /** pruneStorage, second part: host PVCs of ours whose claim is gone, unplugged first. */
    method PruneOrphans()
      requires Valid() && p.stage == PRUNING
      modifies this
      ensures old(Calls()) <= Calls()
      ensures Valid() && want == old(want) && reports == old(reports) && problems >= old(problems)
      ensures (old(pruneFailed) ==> pruneFailed)
      ensures p == old(p).(gone := p.gone) && old(p.gone) <= p.gone
      ensures problems == old(problems) ==>
                && pruneFailed == old(pruneFailed)
                && (forall v | Orphan(p, v) && Clear(p, v) :: v in p.gone)
                && (forall v, c | Orphan(p, v) && RemovalCalled(p, v, c) && !c.DeletePV? :: c in Calls()[|old(Calls())|..])
    {
      hide Runs, CallsOf, Unplugs, Issued, RemovalCalled, TeardownReady;
      ghost var start := Calls();
      var todo := p.hosts;
      while todo != {}
        invariant Valid() && want == old(want) && reports == old(reports) && problems >= old(problems)
        invariant (old(pruneFailed) ==> pruneFailed)
        invariant old(Calls()) <= Calls()
        invariant p == old(p).(gone := p.gone) && todo <= p.hosts && old(p.gone) <= p.gone
        invariant problems == old(problems) ==>
                    && pruneFailed == old(pruneFailed)
                    && (forall v | Orphan(p, v) && Clear(p, v) && v !in todo :: v in p.gone)
                    && (forall v, c | Orphan(p, v) && v !in todo && RemovalCalled(p, v, c) && !c.DeletePV? :: c in Calls()[|start|..])
      {
        var v :| v in todo;
        todo := todo - {v};
        if v !in p.claims {
          ghost var before, sofar := p, Calls();
          PruneOrphan(v);
          PruneKeepsListing(before, p);
          SameCalled(before, p);
          assert Calls()[|start|..] == sofar[|start|..] + Calls()[|sofar|..];
        }
      }
    }

    // A volume on a VM that the sweep asks about.
    predicate Swept(n: Node, name: VolumeName)
      reads this`p
    {
      && n in p.snap && name in p.snap[n] && p.snap[n][name].inSpec
      && p.snap[n][name].claim != "" && NameFor(p.snap[n][name].claim) == name
    }

    /** removeOrphanVMVolumes within a pass: asks for the removal of in-spec volumes whose name derives
        from their claim, each of them unless its claim is found to exist or the call fails. */
    method SweepVolumes() returns (spared: nat)
      requires Valid() && p.stage == PRUNING
      modifies this`w, this`p, this`sched, this`states
      ensures old(Calls()) <= Calls()
      ensures Valid() && p == old(p)
      ensures forall c | c in Calls()[|old(Calls())|..] :: c.Sweep? && Swept(c.n, NameFor(c.v))
      ensures spared == 0 ==> forall n, name | Swept(n, name) :: Sweep(n, p.snap[n][name].claim) in Calls()[|old(Calls())|..]
    {
      hide Runs;
      spared := 0;
      ghost var before := Calls();
      var nodes := p.snap.Keys;
      while nodes != {}
        invariant Valid() && p == old(p) && nodes <= p.snap.Keys && before <= Calls()
        invariant forall c | c in Calls()[|before|..] :: c.Sweep? && Swept(c.n, NameFor(c.v))
        invariant spared == 0 ==> forall n, name | Swept(n, name) && n !in nodes :: Sweep(n, p.snap[n][name].claim) in Calls()[|before|..]
      {
        var n :| n in nodes;
        nodes := nodes - {n};
        ghost var sofar := Calls();
        var here := SweepOne(n);
        spared := spared + here;
        assert Calls()[|before|..] == sofar[|before|..] + Calls()[|sofar|..];
      }
    }

    // One VM of the sweep.
    method SweepOne(n: Node) returns (spared: nat)
      requires Valid() && p.stage == PRUNING && n in p.snap
      modifies this`w, this`p, this`sched, this`states
      ensures old(Calls()) <= Calls()
      ensures Valid() && p == old(p)
      ensures forall c | c in Calls()[|old(Calls())|..] :: c.Sweep? && Swept(c.n, NameFor(c.v))
      ensures spared == 0 ==> forall name | Swept(n, name) :: Sweep(n, p.snap[n][name].claim) in Calls()[|old(Calls())|..]
    {
      hide Runs;
      spared := 0;
      ghost var before := Calls();
      var names := p.snap[n].Keys;
      while names != {}
        invariant Valid() && p == old(p) && names <= p.snap[n].Keys && before <= Calls()
        invariant forall c | c in Calls()[|before|..] :: c.Sweep? && Swept(c.n, NameFor(c.v))
        invariant spared == 0 ==> forall name | Swept(n, name) && name !in names :: Sweep(n, p.snap[n][name].claim) in Calls()[|before|..]
      {
        var name :| name in names;
        names := names - {name};
        var vol := p.snap[n][name];
        if vol.claim != "" && NameFor(vol.claim) == name && vol.inSpec {
          ghost var sofar := Calls();
          var ok := Issue(Sweep(n, vol.claim));
          if ok {
            assert Calls()[|before|..] == sofar[|before|..] + [Sweep(n, vol.claim)];
          } else {
            spared := spared + 1;
          }
        }
      }
    }

    // The claims whose finalizer this pass lets go of.
    predicate Releasable(v: Volume)
      reads this`p
    {
      v in p.claims && p.claims[v].pinned
      && if p.claims[v].deleting then TeardownReady(p, v) && Clear(p, v) else !Provisionable(p, v)
    }

    /** releaseGuestFinalizers, for claims: nothing at all after a failed prune, and never a claim that
        is still wanted. */
    method ReleaseClaims()
      requires Valid() && p.stage == PRUNING
      requires forall v | v in p.claims && p.claims[v].pinned && v !in want && p.claims[v].deleting :: TeardownDone(p, v)
      requires forall v | v in p.claims && p.claims[v].pinned && v !in want && !p.claims[v].deleting :: !Provisionable(p, v)
      modifies this`w, this`p, this`sched, this`states, this`problems
      ensures Valid() && p == old(p) && problems >= old(problems)
      ensures old(Calls()) <= Calls()
      ensures pruneFailed ==> Calls() == old(Calls())
      ensures forall c | c in Calls()[|old(Calls())|..] :: c.UnpinClaim? && c.v in p.claims && p.claims[c.v].pinned && c.v !in want
      ensures !pruneFailed && problems == old(problems) ==>
                forall v | v in p.claims && p.claims[v].pinned && v !in want :: UnpinClaim(v) in Calls()[|old(Calls())|..]
    {
      hide Runs, CallsOf, TeardownDone, TeardownReady, Provisionable, Do, Enabled;
      ghost var before := Calls();
      if pruneFailed {
        return;
      }
      var todo := set v | v in p.claims && p.claims[v].pinned && v !in want;
      ghost var all := todo;
      while todo != {}
        invariant Valid() && p == old(p) && todo <= all && problems >= old(problems) && before <= Calls()
        invariant forall c | c in Calls()[|before|..] :: c.UnpinClaim? && c.v in all
        invariant problems == old(problems) ==> forall v | v in all - todo :: UnpinClaim(v) in Calls()[|before|..]
      {
        var v :| v in todo;
        todo := todo - {v};
        ghost var sofar := Calls();
        var ok := Issue(UnpinClaim(v));
        if !ok {
          problems := problems + 1;
        } else {
          assert Calls()[|before|..] == sofar[|before|..] + [UnpinClaim(v)];
        }
      }
    }

    // A recorded status that its attachment still calls for.
    predicate Due(w: StatusWrite)
      reads this`p
    {
      w.va in p.vas && p.vas[w.va].pinned && Verdict(p, w.va) == Some(w.status)
    }

    /** writeBackStorage: the recorded statuses, skipping those already written. */
    method WriteBack()
      requires Valid() && p.stage == PRUNING
      requires forall w | w in reports :: Due(w)
      modifies this`w, this`p, this`sched, this`states, this`problems
      ensures old(Calls()) <= Calls()
      ensures Valid() && p == old(p).(vas := p.vas) && p.vas.Keys == old(p.vas.Keys) && problems >= old(problems)
      ensures problems == old(problems) ==> forall w | w in reports :: w.va in p.vas && SameStatus(p.vas[w.va].status, w.status)
    {
      hide Runs, CallsOf, Verdict;
      for i := 0 to |reports|
        invariant Valid() && p == old(p).(vas := p.vas) && p.vas.Keys == old(p.vas.Keys) && problems >= old(problems)
        invariant old(Calls()) <= Calls()
        invariant forall w | w in reports :: Due(w)
        invariant problems == old(problems) ==>
                    forall j | 0 <= j < i :: reports[j].va in p.vas && SameStatus(p.vas[reports[j].va].status, reports[j].status)
      {
        assert forall j | 0 <= j <= i :: Due(reports[j]);
        WriteStatus(reports[i]);
      }
    }

    // One status.
    method WriteStatus(w: StatusWrite)
      requires Valid() && p.stage == PRUNING && Due(w)
      modifies this`w, this`p, this`sched, this`states, this`problems
      ensures old(Calls()) <= Calls()
      ensures Valid() && p == old(p).(vas := p.vas) && p.vas.Keys == old(p.vas.Keys) && problems >= old(problems)
      ensures forall b | b in p.vas :: Verdict(p, b) == Verdict(old(p), b) && p.vas[b].pinned == old(p).vas[b].pinned
      ensures forall b | b in p.vas && b != w.va :: p.vas[b] == old(p).vas[b]
      ensures problems == old(problems) ==> SameStatus(p.vas[w.va].status, w.status)
    {
      hide Runs, CallsOf;
      if !SameStatus(p.vas[w.va].status, w.status) {
        ghost var before := p;
        var ok := Issue(if w.status.attached then Report(w.va) else ReportNoVm(w.va));
        if !ok {
          problems := problems + 1;
        } else {
          StatusKeepsVerdicts(before, w);
        }
      }
    }

    lemma StatusKeepsVerdicts(q: View, w: StatusWrite)
      requires w.va in q.vas && p == CallView(q, if w.status.attached then Report(w.va) else ReportNoVm(w.va))
      requires Verdict(q, w.va) == Some(w.status)
      ensures p == q.(vas := p.vas) && p.vas.Keys == q.vas.Keys && p.vas[w.va].status == w.status
      ensures forall b | b in q.vas :: Verdict(p, b) == Verdict(q, b) && p.vas[b].pinned == q.vas[b].pinned
      ensures forall b | b in q.vas && b != w.va :: p.vas[b] == q.vas[b]
    {
    }

    /** applyStorage, first loop: every provisionable claim, each by its plan. */
    method ProvisionAll()
      requires Valid() && p.stage == RUNNING
      requires p.tried == want && forall v | v in want :: Provisionable(p, v)
      modifies this
      ensures Valid() && want == old(want) && reports == old(reports) && problems >= old(problems) && old(Calls()) <= Calls()
      ensures p == old(p).(made := p.made, pvs := p.pvs)
      ensures problems == old(problems) ==> pruneFailed == old(pruneFailed)
      ensures problems == old(problems) ==>
                forall v, c | v in old(want) && v in old(p).claims && MakingCalled(old(p), v, c) :: c in Calls()[|old(Calls())|..]
      ensures old(p.pvs) <= p.pvs <= old(p.pvs) + want
    {
      hide Runs, Issued, MakingCalled;
      ghost var start := Calls();
      var todo := want;
      while todo != {}
        invariant Valid() && want == old(want) && reports == old(reports) && problems >= old(problems) && todo <= want
        invariant p == old(p).(made := p.made, pvs := p.pvs) && start <= Calls()
        invariant old(p.pvs) <= p.pvs <= old(p.pvs) + want
        invariant forall v | v in todo :: v in p.pvs <==> v in old(p).pvs
        invariant forall v | v in want :: v in old(p).claims
        invariant problems == old(problems) ==> pruneFailed == old(pruneFailed)
        invariant problems == old(problems) ==> forall v, c | v in want - todo && c in ProvisionPlan(old(p), v) :: c in Calls()[|start|..]
      {
        var v :| v in todo;
        todo := todo - {v};
        ghost var before := Calls();
        assert ProvisionPlan(p, v) == ProvisionPlan(old(p), v);
        ghost var soFar := problems;
        ghost var plan := ProvisionPlan(p, v);
        ProvisionPVC(v);
        IssuedAll(start, before, Calls(), plan, problems == soFar);
      }
      forall v, c | v in want && MakingCalled(old(p), v, c) ensures c in ProvisionPlan(old(p), v) { ProvisionCalls(old(p), v, c); }
    }

    // Nothing but the finalizer may differ.
    predicate SameButPin(va: Attachment, va': Attachment) {
      va == va'.(pinned := va.pinned)
    }

    // Serving one attachment leaves the verdict on every other as it was.
    lemma PinKeepsVerdicts(q: View, a: string)
      requires p == q || (a in q.vas && p == CallView(q, PinVa(a)))
      ensures p == q.(vas := p.vas) && p.vas.Keys == q.vas.Keys
      ensures forall b | b in q.vas :: Verdict(p, b) == Verdict(q, b) && (q.vas[b].pinned ==> p.vas[b].pinned)
      ensures forall b | b in q.vas && b != a :: AttachmentPlan(p, b) == AttachmentPlan(q, b)
    {
    }

    lemma NothingChanged(q: View)
      ensures forall a | a in q.vas :: SameButPin(q.vas[a], q.vas[a])
    {
    }

    lemma PinChangesPin(q0: View, q: View, a: string)
      requires p == q || (a in q.vas && p == CallView(q, PinVa(a)))
      requires q.vas.Keys == q0.vas.Keys && forall b | b in q.vas :: SameButPin(q.vas[b], q0.vas[b])
      ensures p.vas.Keys == q0.vas.Keys && forall b | b in p.vas :: SameButPin(p.vas[b], q0.vas[b])
    {
    }

    /** applyStorage, second loop: every attachment, each by its plan. */
    method ServeAttachments()
      requires Valid() && p.stage == RUNNING && reports == []
      modifies this
      ensures Valid() && want == old(want) && problems >= old(problems) && old(Calls()) <= Calls()
      ensures p == old(p).(vas := p.vas) && p.vas.Keys == old(p.vas.Keys)
      ensures forall w | w in reports :: Due(w)
      ensures problems == old(problems) ==> forall a | a in p.vas && Verdict(p, a).Some? :: StatusWrite(a, Verdict(p, a).value) in reports
      ensures problems == old(problems) ==> pruneFailed == old(pruneFailed)
      ensures problems == old(problems) ==> Served(old(p), old(p.pvs), Calls()[|old(Calls())|..])
      ensures forall a | a in p.vas :: SameButPin(p.vas[a], old(p).vas[a])
    {
      hide Runs, Issued, AttachmentPlan, Verdict, CallsOf, CallView, Called, SameButPin;
      NothingChanged(p);
      ghost var start := Calls();
      var vas := p.vas.Keys;
      while vas != {}
        invariant Valid() && want == old(want) && problems >= old(problems) && vas <= p.vas.Keys && start <= Calls()
        invariant p == old(p).(vas := p.vas) && p.vas.Keys == old(p.vas.Keys)
        invariant forall a | a in vas :: AttachmentPlan(p, a) == AttachmentPlan(old(p), a)
        invariant forall a | a in p.vas :: SameButPin(p.vas[a], old(p).vas[a])
        invariant problems == old(problems) ==> pruneFailed == old(pruneFailed)
        invariant forall w | w in reports :: Due(w)
        invariant problems == old(problems) ==>
                    forall a | a in p.vas && a !in vas && Verdict(p, a).Some? :: StatusWrite(a, Verdict(p, a).value) in reports
        invariant problems == old(problems) ==>
                    forall a, c | a in old(p.vas) && a !in vas && c in AttachmentPlan(old(p), a) :: c in Calls()[|start|..]
      {
        var a :| a in vas;
        vas := vas - {a};
        ghost var before, calls, soFar := p, Calls(), problems;
        ReconcileAttachment(a);
        PinKeepsVerdicts(before, a);
        PinChangesPin(old(p), before, a);
        IssuedAll(start, calls, Calls(), AttachmentPlan(before, a), problems == soFar);
      }
      if problems == old(problems) { PlansServed(old(p), Calls()[|start|..]); }
    }

    /** The part of a pass that deletes and releases. Without problems it releases exactly the claims
        that are torn down completely or no longer provisionable. */
    method Prune()
      requires Valid() && p.stage == RUNNING
      requires want == (set v | v in p.claims && Provisionable(p, v))
      modifies this
      ensures Valid() && reports == old(reports) && problems >= old(problems) && old(Calls()) <= Calls()
      ensures p == old(p).(stage := PRUNING, gone := p.gone, pvGone := p.pvGone)
      ensures problems == old(problems) && !old(pruneFailed) ==>
                && (forall v | Releasable(v) :: UnpinClaim(v) in Calls()[|old(Calls())|..])
                && TornDown(p, Calls()[|old(Calls())|..])
    {
      hide Runs, CallsOf, RemovalCalled;
      ghost var p0, calls := p, Calls();
      var _ := ListNext(StartPrune);
      PruneKeepsListing(p0, p);
      p0 := p;
      TeardownClaims();
      PruneKeepsListing(p0, p);
      ghost var p1, torn := p, Calls();
      PruneOrphans();
      PruneKeepsListing(p1, p);
      SameCalled(p1, p);
      ghost var cleared := Calls();
      var _ := SweepVolumes();
      ghost var sofar := Calls();
      ReleaseClaims();
      forall v | problems == old(problems) && !old(pruneFailed) && Releasable(v) ensures UnpinClaim(v) in Calls()[|calls|..] {
        assert UnpinClaim(v) in Calls()[|sofar|..];
        assert Calls()[|calls|..] == sofar[|calls|..] + Calls()[|sofar|..];
      }
      assert Calls()[|calls|..] == torn[|calls|..] + cleared[|torn|..] + Calls()[|cleared|..];
    }

    /** applyStorage: the claims, then the attachments. */
    method Apply()
      requires Valid() && p.stage == RUNNING && reports == []
      requires p.tried == want && forall v | v in want :: Provisionable(p, v)
      modifies this
      ensures Valid() && want == old(want) && problems >= old(problems) && old(Calls()) <= Calls()
      ensures p == old(p).(made := p.made, pvs := p.pvs, vas := p.vas) && p.vas.Keys == old(p.vas.Keys)
      ensures forall w | w in reports :: Due(w)
      ensures problems == old(problems) ==> forall a | a in p.vas && Verdict(p, a).Some? :: StatusWrite(a, Verdict(p, a).value) in reports
      ensures problems == old(problems) ==> pruneFailed == old(pruneFailed)
      ensures forall a | a in p.vas :: SameButPin(p.vas[a], old(p).vas[a])
      ensures old(p.pvs) <= p.pvs <= old(p.pvs) + want
      ensures problems == old(problems) ==> Served(old(p), p.pvs, Calls()[|old(Calls())|..])
      ensures problems == old(problems) ==>
                forall v, c | v in want && v in old(p).claims && MakingCalled(old(p), v, c) :: c in Calls()[|old(Calls())|..]
    {
      hide Runs, CallsOf, Verdict, Called, MakingCalled;
      ProvisionAll();
      ghost var made, before := Calls(), p;
      ServeAttachments();
      assert Calls()[|old(Calls())|..] == made[|old(Calls())|..] + Calls()[|made|..];
      if problems == old(problems) {
        ServedMore(before, p.pvs, Calls()[|made|..], Calls()[|old(Calls())|..]);
        SameServed(old(p), before, p.pvs, Calls()[|old(Calls())|..]);
      }
    }

    lemma SameServed(q: View, q': View, pvs: set<Volume>, calls: seq<Call>)
      requires q' == q.(made := q'.made, pvs := q'.pvs) && Served(q', pvs, calls)
      ensures Served(q, pvs, calls)
    {
      forall a, c | a in q.vas ensures Called(q, pvs, a, c) == Called(q', pvs, a, c) {}
    }

    // What is written for every verdict is a report of everything.
    lemma ReportedFrom(q: View, q': View, vas: map<string, Attachment>)
      requires q'.snap == q.snap && q'.vas.Keys == q.vas.Keys && forall a | a in q.vas :: SameButPin(q'.vas[a], q.vas[a])
      requires forall a | a in q'.vas && Verdict(q', a).Some? :: a in vas && SameStatus(vas[a].status, Verdict(q', a).value)
      ensures AllReported(q, q'.pvs, vas)
    {
      forall a | a in q.vas && q.vas[a].vol in q'.pvs && !q.vas[a].deleting
        ensures q.vas[a].node !in q.snap ==> Verdict(q', a) == Some(UnbackedStatus(q.vas[a].node))
        ensures (q.vas[a].node in q.snap && NameFor(q.vas[a].vol) in q.snap[q.vas[a].node]
                 && q.snap[q.vas[a].node][NameFor(q.vas[a].vol)].phase == READY) ==>
                  Verdict(q', a) == Some(AttachedStatus(q.vas[a].vol))
      {
        assert SameButPin(q'.vas[a], q.vas[a]);
      }
    }

    // Prune, in terms of the listings as they were taken.
    lemma PrunedFrom(q: View, calls: seq<Call>)
      requires p.claims == q.claims && p.offered == q.offered && p.hosts == q.hosts && p.snap == q.snap
      requires p.vas.Keys == q.vas.Keys && forall a | a in q.vas :: SameButPin(p.vas[a], q.vas[a])
      requires (forall v | Releasable(v) :: UnpinClaim(v) in calls) && TornDown(p, calls)
      ensures AllReleased(q, calls) && TornDown(q.(pvs := p.pvs), calls)
    {
      hide RemovalCalled;
      var q' := q.(pvs := p.pvs);
      forall v ensures Named(q', v) == Named(p, v) && Clear(q', v) == Clear(p, v) && Provisionable(q', v) == Provisionable(p, v) {
        NamedAlike(q', p, v);
      }
      forall v, c ensures RemovalCalled(q', v, c) == RemovalCalled(p, v, c) { RemovalAlike(q', p, v, c); }
    }

    lemma RemovalAlike(q: View, q': View, v: Volume, c: Call)
      requires q.pvs == q'.pvs && q.hosts == q'.hosts && q.snap == q'.snap
      ensures RemovalCalled(q, v, c) == RemovalCalled(q', v, c)
    {
    }

    lemma NamedAlike(q: View, q': View, v: Volume)
      requires q.vas.Keys == q'.vas.Keys && forall a | a in q.vas :: q.vas[a].vol == q'.vas[a].vol
      ensures Named(q, v) == Named(q', v)
    {
      if a :| a in q.vas && q.vas[a].vol == v { assert q'.vas[a].vol == v; }
      if a :| a in q'.vas && q'.vas[a].vol == v { assert q.vas[a].vol == v; }
    }

    // The part of a pass that makes and serves: the finalizers, and then, if the host namespace could be
    // ensured, what it is for.
    method Serve()
      requires Valid() && p.stage == RUNNING && p.tried == {} && reports == []
      requires want == (set v | v in p.claims && Provisionable(p, v))
      modifies this
      ensures Valid() && want == old(want) && problems >= old(problems) && old(Calls()) <= Calls()
      ensures p == old(p).(tried := want, made := p.made, pvs := p.pvs, vas := p.vas) && p.vas.Keys == old(p.vas.Keys)
      ensures forall a | a in p.vas :: SameButPin(p.vas[a], old(p).vas[a])
      ensures old(p.pvs) <= p.pvs <= old(p.pvs) + want
      ensures forall w | w in reports :: Due(w)
      ensures problems == old(problems) ==>
                && pruneFailed == old(pruneFailed)
                && (forall a | a in p.vas && Verdict(p, a).Some? :: StatusWrite(a, Verdict(p, a).value) in reports)
                && (forall v | Provisionable(old(p), v) :: Call.PinClaim(v) in Calls()[|old(Calls())|..])
                && Provided(old(p), Calls()[|old(Calls())|..]) && Served(old(p), p.pvs, Calls()[|old(Calls())|..])
    {
      hide Runs, CallsOf, Verdict, Called, MakingCalled, Served;
      NothingChanged(p);
      EnsurePins();
      ghost var pinned, before := Calls(), p;
      var ready: bool := *;
      if ready {
        Apply();
        assert Calls()[|old(Calls())|..] == pinned[|old(Calls())|..] + Calls()[|pinned|..];
        if problems == old(problems) {
          ServedSince(old(p), before, p.pvs, Calls()[|pinned|..], Calls()[|old(Calls())|..]);
        }
      } else {
        // The host namespace could not be ensured.
        problems := problems + 1;
      }
    }

    lemma ServedSince(q: View, q': View, pvs: set<Volume>, calls: seq<Call>, all: seq<Call>)
      requires q' == q.(tried := q'.tried) && Served(q', pvs, calls) && forall c | c in calls :: c in all
      requires forall v, c | Provisionable(q, v) && MakingCalled(q', v, c) :: c in calls
      ensures Served(q, pvs, all) && Provided(q, all)
    {
      forall a, c | a in q.vas ensures Called(q, pvs, a, c) == Called(q', pvs, a, c) {}
      forall v, c | v in q.claims ensures MakingCalled(q, v, c) == MakingCalled(q', v, c) {}
    }

    // The part that deletes, releases and reports, for the listings as they were taken.
    method Finish(ghost listed: View)
      requires Valid() && p.stage == RUNNING
      requires want == (set v | v in p.claims && Provisionable(p, v))
      requires p.claims == listed.claims && p.offered == listed.offered && p.hosts == listed.hosts && p.snap == listed.snap
      requires p.vas.Keys == listed.vas.Keys && forall a | a in p.vas :: SameButPin(p.vas[a], listed.vas[a])
      requires forall w | w in reports :: Due(w)
      modifies this
      ensures Valid() && problems >= old(problems) && old(Calls()) <= Calls()
      ensures problems == old(problems) && !old(pruneFailed) ==>
                && AllReleased(listed, Calls()[|old(Calls())|..])
                && TornDown(listed.(pvs := old(p.pvs)), Calls()[|old(Calls())|..])
                && (old(forall a | a in p.vas && Verdict(p, a).Some? :: StatusWrite(a, Verdict(p, a).value) in reports) ==>
                      AllReported(listed, old(p.pvs), p.vas))
    {
      hide Runs, CallsOf, Verdict, Clear, Named, RemovalCalled, AllReported, AllReleased, TornDown, SameButPin;
      Prune();
      PruneKeepsVerdicts(old(p), p);
      ghost var pruned, q, clean := Calls(), p, problems == old(problems) && !old(pruneFailed);
      if clean { PrunedFrom(listed, pruned[|old(Calls())|..]); }
      WriteBack();
      if clean && problems == old(problems) {
        assert Calls()[|old(Calls())|..] == pruned[|old(Calls())|..] + Calls()[|pruned|..];
        StillDone(listed, listed.(pvs := q.pvs), pruned[|old(Calls())|..], Calls()[|old(Calls())|..]);
        if old(forall a | a in p.vas && Verdict(p, a).Some? :: StatusWrite(a, Verdict(p, a).value) in reports) {
          ReportedFrom(listed, q, p.vas);
        }
      }
    }

    lemma StillDone(q: View, q': View, calls: seq<Call>, more: seq<Call>)
      requires AllReleased(q, calls) && TornDown(q', calls) && forall c | c in calls :: c in more
      ensures AllReleased(q, more) && TornDown(q', more)
    {
      hide RemovalCalled, Orphan, TeardownReady, Provisionable;
    }

    /** One storage pass from end to end, whatever fails in it. It keeps to the protocol throughout;
        without the guest, or without the host's listings, it makes no call at all; and a pass without
        problems does everything its listings call for: it pins and provisions the claims, serves the
        attachments, tears down what is to go, reports every attachment, and releases every claim that
        it is done with. */
    method Run() returns (o: Gathered, ghost listed: View, ghost pvs: set<Volume>, ghost reported: map<string, Attachment>)
      requires Valid() && p.stage == IDLE
      modifies this
      ensures Valid() && p.stage == IDLE && old(Calls()) <= Calls()
      ensures o != Listed ==> Calls() == old(Calls())
      ensures o == Listed ==> listed.pvs <= pvs && forall v | v in pvs :: v in listed.pvs || Provisionable(listed, v)
      ensures o == Listed && problems == 0 ==> Thorough(listed, pvs, Calls()[|old(Calls())|..], reported)
    {
      hide Runs, CallsOf, Verdict, Provided, AllReported, AllReleased, Served, TornDown, SameButPin;
      o := Gather();
      listed, pvs, reported := p, p.pvs, map[];
      if o != Listed { return; }
      Serve();
      ghost var served := Calls();
      pvs := p.pvs;
      Finish(listed);
      reported := p.vas;
      if problems == 0 {
        assert Calls()[|old(Calls())|..] == served[|old(Calls())|..] + Calls()[|served|..];
        AllDone(listed, pvs, served[|old(Calls())|..], Calls()[|served|..], Calls()[|old(Calls())|..]);
      }
      var _ := ListNext(EndPass);
    }

    // The parts of a pass are parts of the whole.
    lemma AllDone(q: View, pvs: set<Volume>, early: seq<Call>, late: seq<Call>, all: seq<Call>)
      requires all == early + late
      requires Provided(q, early) && Served(q, pvs, early)
      requires AllReleased(q, late) && TornDown(q.(pvs := pvs), late)
      ensures Provided(q, all) && Served(q, pvs, all) && AllReleased(q, all) && TornDown(q.(pvs := pvs), all)
    {
      ServedMore(q, pvs, early, all);
      ProvidedMore(q, early, all);
      StillDone(q, q.(pvs := pvs), late, all);
    }
  }
}
