/** One pass of deleting a TenantCluster as it is written, internal/syncer/tenantcluster_controller.go and
    storage_pass.go: methods that issue API calls, with the other parties moving before every call, and any
    call failing. Each method only takes moves of module TeardownMachine, so the theorems of modules
    TeardownSafety and TeardownProgress are about these passes. */
module TeardownPass {
  import opened Hotplug
  import opened StorageMachine
  import opened TeardownMachine
  import opened Wrappers

  // The PVC loop left nothing, or did all it could.
  ghost predicate PVCsGone(p: Pass) {
    forall v | v in p.listed :: !Attached(p, v) && v in p.gone
  }

  ghost predicate PVCsServed(p: Pass, done: set<string>) {
    forall v | v in done :: if Attached(p, v) then AllAsked(p, v) else v in p.gone
  }

  // So did the sweep.
  ghost predicate AllFound(p: Pass) {
    forall n, name | Derived(p, n, name) :: (n, name) in p.present
  }

  ghost predicate AllLooked(p: Pass) {
    forall n, name | Derived(p, n, name) :: Looked(p, n, name)
  }

  // More requests and deletions change nothing in what the pass reads off its listings.
  lemma SameReading(p: Pass, q: Pass)
    requires q.snap == p.snap && p.asked <= q.asked && p.gone <= q.gone && p.present <= q.present && p.missing <= q.missing
    ensures forall v :: Attached(q, v) == Attached(p, v) && (AllAsked(p, v) ==> AllAsked(q, v))
    ensures forall n, name :: Derived(q, n, name) == Derived(p, n, name) && (Looked(p, n, name) ==> Looked(q, n, name))
    ensures forall vs | PVCsServed(p, vs) :: PVCsServed(q, vs)
  {
    forall v ensures Attached(q, v) == Attached(p, v) && (AllAsked(p, v) ==> AllAsked(q, v)) {
      forall n | AllAsked(p, v) && SeenOn(q, n, NameFor(v)).inSpec ensures (n, NameFor(v)) in q.asked {
        assert SeenOn(p, n, NameFor(v)).inSpec;
      }
    }
  }

  lemma SameStorage(p: Pass, q: Pass)
    requires q == p.(rest := q.rest, cleared := q.cleared)
    ensures PVCsGone(q) == PVCsGone(p) && AllFound(q) == AllFound(p) && AllLooked(q) == AllLooked(p)
    ensures PVCsServed(q, q.listed) == PVCsServed(p, p.listed)
  {
    SameReading(p, q);
    SameReading(q, p);
  }

  lemma Outcome(p: Pass)
    requires p.stage == Ready && p.rest.Some?
    ensures Done(p) <==> PVCsGone(p) && AllFound(p) && p.rest.value <= p.cleared
    ensures Complete(p) <==> PVCsServed(p, p.listed) && AllLooked(p) && p.rest.value <= p.cleared
  {
  }

  class TenantTeardown {
    // The namespace and the pass; how many host calls have failed.
    var s: State
    var failures: nat
    ghost var moves: seq<Move>
    ghost var states: seq<State>

    ghost predicate Valid()
      reads this
    {
      TeardownRun(moves, states) && states[|moves|] == s
    }

    constructor (s: State)
      requires Start(s)
      ensures Valid() && this.s == s && failures == 0
    {
      this.s, failures := s, 0;
      moves, states := [], [s];
    }

    ghost method Record(t: Move)
      requires Valid() && Can(s, t)
      modifies this`moves, this`states
      ensures moves == old(moves) + [t] && states == old(states) + [Make(s, t)]
      ensures TeardownRun(moves, states) && states[|moves| - 1] == s
    {
      states := states + [Make(s, t)];
      moves := moves + [t];
    }

    // Any number of moves of KubeVirt and of other users.
    method Interfere()
      requires Valid()
      modifies this`s, this`moves, this`states
      ensures Valid() && old(moves) <= moves
      ensures s.pass == old(s.pass) && s.released == old(s.released) && s.hotplug == old(s.hotplug)
    {
      hide TeardownRun;
      var n: nat := *;
      while n > 0
        invariant Valid() && old(moves) <= moves
        invariant s.pass == old(s.pass) && s.released == old(s.released) && s.hotplug == old(s.hotplug)
      {
        var t: Move := *;
        if t.KubeVirt? && t.n in s.vms && KvEnabled(s.vms[t.n], t.k) {
          Record(t);
          s := s.(vms := s.vms[t.n := KvDo(s.vms[t.n], t.k)]);
        } else if OthersCan(s, t) {
          Record(t);
          s := Make(s, t);
        }
        n := n - 1;
      }
    }

    // One call of the pass. It may be refused, or fail for reasons of its own; then it has no effect.
    method Issue(t: Move) returns (ok: bool, ghost was: State)
      requires Valid() && Due(s.pass, s.hotplug, s.released, t)
      modifies this
      ensures Valid() && old(moves) <= moves && s.released == old(s.released) && s.hotplug == old(s.hotplug)
      ensures was.pass == old(s.pass) && was.hotplug == s.hotplug && was.released == s.released
      ensures ok ==> Can(was, t) && s == Make(was, t) && failures == old(failures)
      ensures ok ==> |moves| > |old(moves)| && moves[|moves| - 1] == t
      ensures !ok ==> s.pass == old(s.pass) && failures == old(failures) + 1
    {
      hide TeardownRun;
      Interfere();
      was := s;
      ok := *;
      if ok && Accepted(s.vms, t) {
        Record(t);
        s := Make(s, t);
      } else {
        ok, failures := false, failures + 1;
      }
    }

    // One PVC against the snapshot: every VM that has it in spec is asked to let go.
    method UnplugPVC(v: string) returns (attached: bool)
      requires Valid() && s.pass.stage == Ready && v in s.pass.listed
      modifies this
      ensures Valid() && old(moves) <= moves && s.released == old(s.released) && s.hotplug == old(s.hotplug)
      ensures s.pass == old(s.pass).(asked := s.pass.asked) && old(s.pass).asked <= s.pass.asked && failures >= old(failures)
      ensures forall r | r in s.pass.asked - old(s.pass).asked :: r.1 == NameFor(v) && SeenOn(s.pass, r.0, r.1).inSpec
      ensures attached <==> Attached(s.pass, v)
      ensures failures == old(failures) ==> AllAsked(s.pass, v)
    {
      hide TeardownRun, Can;
      attached := false;
      var todo := s.pass.snap.Keys;
      while todo != {}
        invariant Valid() && old(moves) <= moves && s.released == old(s.released) && s.hotplug == old(s.hotplug)
        invariant s.pass == old(s.pass).(asked := s.pass.asked) && old(s.pass).asked <= s.pass.asked && failures >= old(failures)
        invariant forall r | r in s.pass.asked - old(s.pass).asked :: r.1 == NameFor(v) && SeenOn(s.pass, r.0, r.1).inSpec
        invariant todo <= s.pass.snap.Keys
        invariant attached <==> exists n | n in s.pass.snap.Keys - todo :: NameFor(v) in s.pass.snap[n]
        invariant failures == old(failures) ==>
                    forall n | n in s.pass.snap.Keys - todo && SeenOn(s.pass, n, NameFor(v)).inSpec :: (n, NameFor(v)) in s.pass.asked
      {
        var n :| n in todo;
        todo := todo - {n};
        if NameFor(v) in s.pass.snap[n] {
          attached := true;
          if s.pass.snap[n][NameFor(v)].inSpec {
            var _, _ := Issue(Detach(v, n));
          }
        }
      }
    }

    // The PVC loop of storageTeardown.
    method TeardownPVCs() returns (done: bool)
      requires Valid() && s.pass.stage == Ready && s.pass.gone == {}
      modifies this
      ensures Valid() && old(moves) <= moves && s.released == old(s.released) && s.hotplug == old(s.hotplug)
      ensures s.pass == old(s.pass).(asked := s.pass.asked, gone := s.pass.gone) && failures >= old(failures)
      ensures done <==> PVCsGone(s.pass)
      ensures failures == old(failures) ==> PVCsServed(s.pass, s.pass.listed)
    {
      hide TeardownRun, Can, AllAsked, Attached, PVCsServed;
      done := true;
      var todo := s.pass.listed;
      ServedNone(s.pass);
      assert s.pass.listed - todo == {};
      while todo != {}
        invariant Valid() && old(moves) <= moves && s.released == old(s.released) && s.hotplug == old(s.hotplug)
        invariant s.pass == old(s.pass).(asked := s.pass.asked, gone := s.pass.gone) && failures >= old(failures)
        invariant todo <= s.pass.listed && s.pass.gone <= s.pass.listed - todo
        invariant done <==> forall v | v in s.pass.listed - todo :: !Attached(s.pass, v) && v in s.pass.gone
        invariant failures == old(failures) ==> PVCsServed(s.pass, s.pass.listed - todo)
      {
        var v :| v in todo;
        ghost var before, served, clean := s.pass, s.pass.listed - todo, failures == old(failures);
        todo := todo - {v};
        assert s.pass.listed - todo == served + {v};
        var attached := UnplugPVC(v);
        SameReading(before, s.pass);
        if attached {
          done := false;
        } else {
          ghost var unplugged := s.pass;
          var ok, _ := Issue(DeletePVC(v));
          if ok { SameReading(unplugged, s.pass); }
          if !ok { done := false; }
        }
        if failures == old(failures) {
          ServedMore(s.pass, served, v);
        }
      }
      assert s.pass.listed - todo == s.pass.listed;
    }

    lemma ServedNone(p: Pass)
      ensures PVCsServed(p, {})
    {
    }

    lemma ServedMore(p: Pass, served: set<string>, v: string)
      requires PVCsServed(p, served) && (if Attached(p, v) then AllAsked(p, v) else v in p.gone)
      ensures PVCsServed(p, served + {v})
    {
    }

    // One volume of the sweep: its claim is looked for, uncached, and if it is gone the VM is asked to let
    // go. Clean only if the claim was found.
    method SweepVolume(n: Node, name: VolumeName) returns (clean: bool)
      requires Valid() && s.pass.stage == Ready && Derived(s.pass, n, name) && (n, name) !in s.pass.present
      modifies this
      ensures Valid() && old(moves) <= moves && s.released == old(s.released) && s.hotplug == old(s.hotplug)
      ensures s.pass == old(s.pass).(asked := s.pass.asked, present := s.pass.present, missing := s.pass.missing, taken := s.pass.taken)
      ensures old(s.pass).asked <= s.pass.asked && old(s.pass).missing <= s.pass.missing && failures >= old(failures)
      ensures s.pass.present == old(s.pass).present + if clean then {(n, name)} else {}
      ensures failures == old(failures) ==> Looked(s.pass, n, name)
    {
      hide TeardownRun;
      var ok, was := Issue(ReadClaim(n, name));
      if !ok { return false; }
      if (n, name) in s.pass.present { return true; }
      if s.pass.snap[n][name].inSpec {
        var _, _ := Issue(Purge(n, name));
      }
      return false;
    }

    // One VM of the sweep.
    method SweepVM(n: Node) returns (clean: bool)
      requires Valid() && s.pass.stage == Ready && n in s.pass.snap
      requires forall name :: (n, name) !in s.pass.present
      modifies this
      ensures Valid() && old(moves) <= moves && s.released == old(s.released) && s.hotplug == old(s.hotplug)
      ensures s.pass == old(s.pass).(asked := s.pass.asked, present := s.pass.present, missing := s.pass.missing, taken := s.pass.taken)
      ensures old(s.pass).asked <= s.pass.asked && old(s.pass).missing <= s.pass.missing && failures >= old(failures)
      ensures old(s.pass).present <= s.pass.present && forall r | r in s.pass.present - old(s.pass).present :: r.0 == n
      ensures clean <==> forall name | Derived(s.pass, n, name) :: (n, name) in s.pass.present
      ensures failures == old(failures) ==> forall name | Derived(s.pass, n, name) :: Looked(s.pass, n, name)
    {
      hide TeardownRun, Can, Looked;
      clean := true;
      var names := s.pass.snap[n].Keys;
      while names != {}
        invariant Valid() && old(moves) <= moves && s.released == old(s.released) && s.hotplug == old(s.hotplug)
        invariant s.pass == old(s.pass).(asked := s.pass.asked, present := s.pass.present, missing := s.pass.missing, taken := s.pass.taken)
        invariant old(s.pass).asked <= s.pass.asked && old(s.pass).missing <= s.pass.missing && failures >= old(failures)
        invariant old(s.pass).present <= s.pass.present && forall r | r in s.pass.present - old(s.pass).present :: r.0 == n && r.1 !in names
        invariant names <= s.pass.snap[n].Keys
        invariant clean <==> forall name | Derived(s.pass, n, name) && name !in names :: (n, name) in s.pass.present
        invariant failures == old(failures) ==> forall name | Derived(s.pass, n, name) && name !in names :: Looked(s.pass, n, name)
      {
        var name :| name in names;
        names := names - {name};
        var vol := s.pass.snap[n][name];
        if vol.claim == "" || NameFor(vol.claim) != name {
          continue;  // not a volume this controller created
        }
        ghost var before := s.pass;
        var found := SweepVolume(n, name);
        SameReading(before, s.pass);
        clean := clean && found;
      }
    }

    /** removeOrphanVMVolumes: clean exactly if the claim of every volume of ours was found. */
    method RemoveOrphanVMVolumes() returns (clean: bool)
      requires Valid() && s.pass.stage == Ready && s.pass.present == {}
      modifies this
      ensures Valid() && old(moves) <= moves && s.released == old(s.released) && s.hotplug == old(s.hotplug)
      ensures s.pass == old(s.pass).(asked := s.pass.asked, present := s.pass.present, missing := s.pass.missing, taken := s.pass.taken)
      ensures old(s.pass).asked <= s.pass.asked && old(s.pass).missing <= s.pass.missing && failures >= old(failures)
      ensures clean <==> AllFound(s.pass)
      ensures failures == old(failures) ==> AllLooked(s.pass)
    {
      hide TeardownRun, Can, Looked, Derived;
      clean := true;
      var nodes := s.pass.snap.Keys;
      while nodes != {}
        invariant Valid() && old(moves) <= moves && s.released == old(s.released) && s.hotplug == old(s.hotplug)
        invariant s.pass == old(s.pass).(asked := s.pass.asked, present := s.pass.present, missing := s.pass.missing, taken := s.pass.taken)
        invariant old(s.pass).asked <= s.pass.asked && old(s.pass).missing <= s.pass.missing && failures >= old(failures)
        invariant nodes <= s.pass.snap.Keys && forall r | r in s.pass.present :: r.0 !in nodes
        invariant clean <==> forall n, name | n in s.pass.snap.Keys - nodes && Derived(s.pass, n, name) :: (n, name) in s.pass.present
        invariant failures == old(failures) ==>
                    forall n, name | n in s.pass.snap.Keys - nodes && Derived(s.pass, n, name) :: Looked(s.pass, n, name)
      {
        var n :| n in nodes;
        nodes := nodes - {n};
        ghost var before := s.pass;
        var here := SweepVM(n);
        SameReading(before, s.pass);
        clean := clean && here;
      }
      DerivedIsShown(s.pass);
    }

    lemma DerivedIsShown(p: Pass)
      ensures forall n, name | Derived(p, n, name) :: n in p.snap
    {
    }

    // The listings of storageTeardown. Without a hotplug client there is no looking at VMs, and PVCs that
    // remain are an error.
    method Gather() returns (err: bool)
      requires Valid() && s.pass == NoPass && !s.released
      modifies this
      ensures Valid() && old(moves) <= moves && s.released == old(s.released) && s.hotplug == old(s.hotplug) && failures >= old(failures)
      ensures !err ==> s.pass == NoPass.(stage := Ready, listed := s.pass.listed, snap := s.pass.snap)
      ensures err && failures == old(failures) ==> !s.hotplug && s.pass.listed != {}
      ensures !err ==> exists i | |old(moves)| <= i < |moves| :: moves[i] == GetPVCs
    {
      hide TeardownRun;
      var ok, was := Issue(GetPVCs);
      if !ok { return true; }
      ghost var first := |moves| - 1;
      assert moves[first] == GetPVCs;
      if !s.hotplug {
        if s.pass.listed != {} { return true; }
        Record(GetNone);
        s := Make(s, GetNone);
        assert moves[first] == GetPVCs;
        return false;
      }
      ok, was := Issue(GetVMs);
      if !ok { return true; }
      ok, was := Issue(GetVMIs);
      assert moves[first] == GetPVCs;
      return !ok;
    }

    // What storage is to have come to before the finalizer may drop.
    ghost predicate StorageDone()
      reads this`s
    {
      PVCsGone(s.pass) && AllFound(s.pass)
    }

    /** storageTeardown: unplug and delete every PVC of the tenant, and sweep what is left behind. Done
        exactly if nothing of either is left. */
    method StorageTeardown() returns (done: bool, err: bool)
      requires Valid() && s.pass == NoPass && !s.released
      modifies this
      ensures Valid() && old(moves) <= moves && s.released == old(s.released) && s.hotplug == old(s.hotplug) && failures >= old(failures)
      ensures err && failures == old(failures) ==> !s.hotplug && s.pass.listed != {}
      ensures !err ==> s.pass.stage == Ready && s.pass.rest == None && s.pass.cleared == {} && (done <==> StorageDone())
      ensures !err && failures == old(failures) ==> PVCsServed(s.pass, s.pass.listed) && AllLooked(s.pass)
      ensures !err ==> exists i | |old(moves)| <= i < |moves| :: moves[i] == GetPVCs
    {
      hide TeardownRun, Can, Derived, Attached, AllAsked, PVCsServed;
      done := false;
      err := Gather();
      if err { return; }
      ghost var i :| |old(moves)| <= i < |moves| && moves[i] == GetPVCs;
      done := TeardownPVCs();
      ghost var before := s.pass;
      var clean := RemoveOrphanVMVolumes();
      SameReading(before, s.pass);
      done := done && clean;
      assert moves[i] == GetPVCs;
    }

    /** Services, Ingresses, Gateways and HTTPRoutes have no order to keep. */
    method DeleteOthers() returns (failed: bool, err: bool)
      requires Valid() && s.pass.stage == Ready
      modifies this
      ensures Valid() && old(moves) <= moves && s.released == old(s.released) && s.hotplug == old(s.hotplug)
      ensures s.pass == old(s.pass).(rest := s.pass.rest, cleared := s.pass.cleared) && failures >= old(failures)
      ensures !err ==> s.pass.rest.Some? && (failed <==> !(s.pass.rest.value <= s.pass.cleared))
      ensures (failed || err) <==> failures > old(failures)
    {
      hide TeardownRun;
      failed, err := false, false;
      var ok, was := Issue(GetOthers);
      if !ok { return false, true; }
      var todo := s.pass.rest.value;
      while todo != {}
        invariant Valid() && old(moves) <= moves && s.released == old(s.released) && s.hotplug == old(s.hotplug)
        invariant s.pass == old(s.pass).(rest := s.pass.rest, cleared := s.pass.cleared) && failures >= old(failures)
        invariant s.pass.rest.Some? && todo <= s.pass.rest.value && s.pass.cleared <= s.pass.rest.value - todo
        invariant failed <==> !(s.pass.rest.value - todo <= s.pass.cleared)
        invariant failed <==> failures > old(failures)
      {
        var o :| o in todo;
        todo := todo - {o};
        ok, was := Issue(DeleteOther(o));
        if !ok { failed := true; }
      }
      assert s.pass.rest.value - todo == s.pass.rest.value;
    }

    // The pass ends, keeping the finalizer.
    method GiveUp()
      requires Valid()
      modifies this`s, this`moves, this`states
      ensures Valid() && s == old(s).(pass := NoPass)
      ensures moves == old(moves) + [Stop] && |states| == |moves| + 1 && states[|moves| - 1] == old(s)
    {
      Record(Stop);
      s := s.(pass := NoPass);
    }

    /** reconcileDelete: storage first, then everything else that carries the tenant's labels; the finalizer
        goes last. A pass in which no call fails is complete, and drops the finalizer exactly if nothing is
        left; a pass in which calls fail may have to leave that to the next. */
    method ReconcileDelete() returns (err: bool, ghost last: State)
      requires Valid() && s.pass == NoPass
      modifies this
      ensures Valid() && s.pass == NoPass && old(moves) <= moves && s.hotplug == old(s.hotplug) && failures >= old(failures)
      ensures old(s.released) ==> s == old(s) && moves == old(moves)
      ensures !old(s.released) ==>
                && |moves| > |old(moves)| && states[|moves| - 1] == last && (s.released <==> moves[|moves| - 1] == Release)
                && (s.released ==> Done(last.pass))
      ensures !old(s.released) && failures == old(failures) && !err ==>
                && Complete(last.pass) && moves[|moves| - 1] == (if Done(last.pass) then Release else Stop)
                && exists i | |old(moves)| <= i < |moves| - 1 :: moves[i] == GetPVCs
      ensures err && failures == old(failures) ==> !s.hotplug && last.pass.listed != {}
    {
      hide TeardownRun, Done, Complete, PVCsGone, PVCsServed, AllFound, AllLooked;
      err, last := false, s;
      if s.released { return; }
      var done: bool;
      done, err := StorageTeardown();
      last := s;
      if err {
        GiveUp();
        return;
      }
      ghost var i :| |old(moves)| <= i < |moves| && moves[i] == GetPVCs;
      ghost var before := s.pass;
      var failed: bool;
      failed, err := DeleteOthers();
      SameStorage(before, s.pass);
      if !err { Outcome(s.pass); }
      last := s;
      assert moves[i] == GetPVCs;
      if err || failed || !done {
        GiveUp();
        assert moves[i] == GetPVCs;
        return;
      }
      var ok: bool := *;
      if !ok {
        failures, err := failures + 1, true;
        GiveUp();
        return;
      }
      Record(Release);
      s := s.(released := true, pass := NoPass);
      assert moves[i] == GetPVCs;
    }
  }
}
