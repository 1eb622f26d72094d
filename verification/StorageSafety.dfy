/** What the storage protocol guarantees over whole runs, for any interleaving of its parties. Where
    nothing else is said, also when finalizer writes fail and classes are un-offered. */
module StorageSafety {
  import opened Hotplug
  import opened StorageMachine
  import opened StorageCore
  import opened StorageInvariant

  lemma {:induction false} InvHolds(sched: seq<Step>, states: seq<Sys>, i: nat)
    requires GoodRun(sched, states) && i < |states|
    ensures Inv(states[i])
    decreases i
  {
    hide Inv;
    if i == 0 {
      InvInit();
    } else {
      InvHolds(sched, states, i - 1);
      InvStep(states[i - 1], sched[i - 1]);
    }
  }

  /** At no moment of any run is a volume queued for, in the spec of, or reported by two VMs. */
  lemma SingleAttachment(sched: seq<Step>, states: seq<Sys>, i: nat, v: Volume, n: Node, m: Node)
    requires Runs(sched, states) && i < |states|
    requires Carried(states[i].w.vms, n, v) && Carried(states[i].w.vms, m, v)
    ensures n == m
  {
    CoreHolds(sched, states, i);
    var w := states[i].w;
    assert PinnedFor(w.vas, n, v) && PinnedFor(w.vas, m, v);
  }

  /* ----- No surprise unplug ----- */

  /** A pass unplugs a volume that it lists as actively attached on two paths only: as an orphan without
      a listed claim, or in the sweep, when its disk is gone already. */
  lemma SurpriseNeedsOrphan(sched: seq<Step>, states: seq<Sys>, i: nat, v: Volume, n: Node, a: string)
    requires Runs(sched, states) && i < |sched|
    requires Removes(states[i], sched[i], n, v)
    requires a in states[i].p.vas && states[i].p.vas[a].vol == v && !states[i].p.vas[a].deleting
    ensures (sched[i].c.Unplug? && Orphan(states[i].p, v)) || (sched[i].c.Sweep? && v !in states[i].w.hostPVCs)
  {
    CoreHolds(sched, states, i);
    assert Named(states[i].p, v);
  }

  /** In good runs there is no such path: neither the attachment path, nor claim teardown, nor the
      orphan paths unplug a volume that the pass lists as actively attached. */
  lemma NoSurpriseUnplug(sched: seq<Step>, states: seq<Sys>, i: nat, v: Volume, n: Node, a: string)
    requires GoodRun(sched, states) && i < |sched|
    requires Removes(states[i], sched[i], n, v)
    requires a in states[i].p.vas && states[i].p.vas[a].vol == v
    ensures states[i].p.vas[a].deleting
  {
    InvHolds(sched, states, i);
    assert Named(states[i].p, v);
  }

  // The volume was Ready on the VM at some moment up to i.
  ghost predicate WasReady(states: seq<Sys>, i: nat, n: Node, v: Volume) {
    exists k | 0 <= k <= i && k < |states| ::
      n in states[k].w.vms && LastPhase(states[k].w.vms[n].status, NameFor(v)) == READY
  }

  ghost predicate AttachedWereReady(states: seq<Sys>, i: nat)
    requires i < |states|
  {
    var s := states[i];
    && (forall a | a in s.w.vas && s.w.vas[a].status.attached :: WasReady(states, i, s.w.vas[a].node, s.w.vas[a].vol))
    && (s.p.stage == GOT_VMS ==> forall n, v | Shows(s.p, n, v) :: Seen(s.p, n, v).phase == "")
    && (s.p.stage >= RUNNING ==> forall n, v | Seen(s.p, n, v).phase == READY :: WasReady(states, i, n, v))
  }

  lemma WasReadyGrows(states: seq<Sys>, i: nat, n: Node, v: Volume)
    requires i + 1 < |states| && WasReady(states, i, n, v)
    ensures WasReady(states, i + 1, n, v)
  {
  }

  lemma ReadyListing(sched: seq<Step>, states: seq<Sys>, i: nat)
    requires Runs(sched, states) && i < |sched| && sched[i].List? && AttachedWereReady(states, i)
    ensures AttachedWereReady(states, i + 1)
  {
    var s, s' := states[i], states[i + 1];
    forall n, v | WasReady(states, i, n, v) ensures WasReady(states, i + 1, n, v) {
      WasReadyGrows(states, i, n, v);
    }
    if sched[i].l.ListVMs? {
      forall n, v | Shows(s'.p, n, v) ensures Seen(s'.p, n, v).phase == "" {
        MergeMeaning(s.w.vms[n].spec, s.w.vms[n].requests, [], NameFor(v));
      }
    } else if sched[i].l.ListVMIs? {
      forall n, v | Seen(s'.p, n, v).phase == READY ensures WasReady(states, i + 1, n, v) {
        assert Seen(s.p, n, v).phase == "" by { assert Shows(s.p, n, v) || Seen(s.p, n, v) == Unknown; }
        if n in s.w.vms {
          StatusMerged(s.p.snap[n], s.w.vms[n].status, NameFor(v));
          assert LastPhase(states[i].w.vms[n].status, NameFor(v)) == READY;
        }
      }
    } else if sched[i].l.StartPrune? {
      SameSnapshot(s.p, s'.p);
    }
  }

  lemma SameSnapshot(p: View, q: View)
    requires p.snap == q.snap
    ensures forall n, v :: Shows(p, n, v) == Shows(q, n, v) && Seen(p, n, v) == Seen(q, n, v)
  {
  }

  lemma KeepsSnapshot(s: Sys, t: Step)
    requires Enabled(s, t) && !t.List?
    ensures Do(s, t).p.snap == s.p.snap && Do(s, t).p.stage == s.p.stage
  {
    hide CallWorld, Lands, Warranted, KvDo;
  }

  lemma ReadyStep(sched: seq<Step>, states: seq<Sys>, i: nat)
    requires Runs(sched, states) && i < |sched| && !sched[i].List? && AttachedWereReady(states, i)
    ensures AttachedWereReady(states, i + 1)
  {
    hide WasReady, Shows, Seen, Enabled, Do;
    var s, s' := states[i], states[i + 1];
    forall n, v | WasReady(states, i, n, v) ensures WasReady(states, i + 1, n, v) {
      WasReadyGrows(states, i, n, v);
    }
    KeepsSnapshot(s, sched[i]);
    SameSnapshot(s.p, s'.p);
    forall a | a in s'.w.vas && s'.w.vas[a].status.attached
      ensures WasReady(states, i, s'.w.vas[a].node, s'.w.vas[a].vol)
    {
      AttachedByReport(s, sched[i], a);
    }
  }

  // The attachment was attached already, or the pass has just seen its volume Ready.
  ghost predicate AttachedFor(s: Sys, va: Attachment, a: string) {
    && a in s.w.vas && s.w.vas[a].node == va.node && s.w.vas[a].vol == va.vol
    && (s.w.vas[a].status.attached || (s.p.stage >= RUNNING && Seen(s.p, va.node, va.vol).phase == READY))
  }

  lemma AttachedByCall(s: Sys, c: Call, a: string)
    requires CallEnabled(s.w, s.p, c) && a in CallWorld(s.w, s.p, c).vas && CallWorld(s.w, s.p, c).vas[a].status.attached
    ensures AttachedFor(s, CallWorld(s.w, s.p, c).vas[a], a)
  {
    hide Seen, Shows, Named, Clear, Provisionable, TeardownReady, TeardownDone, Orphan;
  }

  lemma AttachedByReport(s: Sys, t: Step, a: string)
    requires Enabled(s, t) && !t.List?
    requires a in Do(s, t).w.vas && Do(s, t).w.vas[a].status.attached
    ensures AttachedFor(s, Do(s, t).w.vas[a], a)
  {
    hide Seen, KvEnabled, KvDo, CallEnabled, CallWorld, CallView;
    if t.Syncer? { AttachedByCall(s, t.c, a); }
  }

  /** An attachment is reported attached only after its VM reported the volume Ready. */
  lemma {:induction false} AttachedWasReady(sched: seq<Step>, states: seq<Sys>, i: nat, a: string)
    requires Runs(sched, states) && i < |states|
    requires a in states[i].w.vas && states[i].w.vas[a].status.attached
    ensures WasReady(states, i, states[i].w.vas[a].node, states[i].w.vas[a].vol)
  {
    ReadyThroughout(sched, states, i);
  }

  lemma {:induction false} ReadyThroughout(sched: seq<Step>, states: seq<Sys>, i: nat)
    requires Runs(sched, states) && i < |states|
    ensures AttachedWereReady(states, i)
    decreases i
  {
    if i > 0 {
      ReadyThroughout(sched, states, i - 1);
      if sched[i - 1].List? { ReadyListing(sched, states, i - 1); } else { ReadyStep(sched, states, i - 1); }
    }
  }

  /* ----- Ordered teardown ----- */

  /** When the finalizer of a deleting claim is released, everything made for it is gone from the live
      stores, not only from the listings: no host PVC, no PV, no attachment, no VM carrying the volume. */
  lemma ReleasedClaimLeavesNothing(sched: seq<Step>, states: seq<Sys>, i: nat, v: Volume)
    requires Runs(sched, states) && i < |sched|
    requires sched[i] == Syncer(UnpinClaim(v)) && states[i].p.claims[v].deleting
    ensures var w := states[i].w;
            && w.claims[v].deleting && v !in w.hostPVCs && v !in w.pvs
            && (forall a | a in w.vas :: w.vas[a].vol != v)
            && (forall n :: !Carried(w.vms, n, v))
  {
    CoreHolds(sched, states, i);
    TornDownHasNoVa(states[i], v);
  }

  /** In good runs no other claims are released. */
  lemma OnlyDeletingReleased(sched: seq<Step>, states: seq<Sys>, i: nat, v: Volume)
    requires GoodRun(sched, states) && i < |sched|
    requires sched[i] == Syncer(UnpinClaim(v))
    ensures states[i].p.claims[v].deleting
  {
    InvHolds(sched, states, i);
    UnpinsOnlyTornDown(states[i], v);
  }

  /** A claim that is attached stays: while any attachment for it exists it is live or held by our
      finalizer, with its PV and its disk. */
  lemma AttachedClaimIsHeld(sched: seq<Step>, states: seq<Sys>, i: nat, a: string)
    requires GoodRun(sched, states) && i < |states| && a in states[i].w.vas
    ensures var w := states[i].w; var v := w.vas[a].vol;
            v in w.claims && w.claims[v].pinned && v in w.pvs && v in w.hostPVCs && v !in w.deleted
  {
    InvHolds(sched, states, i);
  }

  /** The syncer never deletes the disk of a claim that is not being deleted. */
  lemma LiveClaimKeepsDisk(sched: seq<Step>, states: seq<Sys>, i: nat, v: Volume)
    requires Runs(sched, states) && i < |sched|
    requires sched[i] == Syncer(DeleteHost(v))
    ensures v in states[i].w.claims ==> states[i].w.claims[v].deleting
  {
    CoreHolds(sched, states, i);
  }
}
