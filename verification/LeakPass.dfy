/** The order of a pass as it is written, internal/syncer/pass.go and internal/syncer/writeback.go: pin,
    apply, prune, release; with every call able to fail and the tenant moving before every call. Each
    method is proved to take only steps of module Leaks, so its theorems hold of every such pass. */
module LeakPass {
  import opened Ownership
  import opened AddressLimit
  import opened Leaks

  class PinnedPass {
    var w: World
    var p: View
    var problems: nat
    var pruneFailed: bool
    // finalizer writes that failed; guest objects let go of
    var pinFailures: nat
    var released: set<ObjRef>
    ghost var sched: seq<Step>
    ghost var states: seq<Sys>

    ghost predicate Valid()
      reads this`w, this`p, this`sched, this`states, this`pinFailures
    {
      && Runs(sched, states) && states[|sched|] == Sys(w, p) && Listed(p)
      && (pinFailures == 0 ==> GoodRun(sched, states))
    }

    ghost method Record(t: Step)
      requires Valid() && Can(Sys(w, p), t) && (t.PinFails? ==> pinFailures > 0)
      modifies this`sched, this`states
      ensures Runs(sched, states) && states[|sched|] == Do(Sys(w, p), t) && Listed(states[|sched|].p)
      ensures (pinFailures == 0 ==> GoodRun(sched, states)) && sched == old(sched) + [t]
    {
      states := states + [Do(Sys(w, p), t)];
      sched := sched + [t];
    }

    // Takes a step of the pass.
    method Take(t: Step)
      requires Valid() && Can(Sys(w, p), t) && (t.PinFails? ==> pinFailures > 0)
      modifies this`w, this`p, this`sched, this`states
      ensures Valid() && w == Do(old(Sys(w, p)), t).w && p == Do(old(Sys(w, p)), t).p && sched == old(sched) + [t]
    {
      hide Runs, GoodRun;
      Record(t);
      var s := Do(Sys(w, p), t);
      w, p := s.w, s.p;
    }

    // Any number of steps of the tenant, and of others on the host.
    method Interfere()
      requires Valid()
      modifies this`w, this`p, this`sched, this`states
      ensures Valid() && p == old(p) && w.host <= old(w.host) && old(sched) <= sched
    {
      hide Runs, GoodRun;
      var n: nat := *;
      while n > 0
        invariant Valid() && p == old(p) && w.host <= old(w.host) && old(sched) <= sched
      {
        var t: Step := *;
        if (t.GuestCreate? || t.GuestDelete? || t.GuestVanish? || t.HostLost?) && Can(Sys(w, p), t) {
          Take(t);
        }
        n := n - 1;
      }
    }

    /** The gather: one list call per kind, and the decisions, which are the translations' and the
        limit's; only listed live objects are wanted. */
    method Gather(managed: set<Kind>, kinds: set<Kind>)
      requires Valid() && p.stage == IDLE && kinds <= managed
      modifies this
      ensures Valid() && p.stage == APPLYING && p.tried == {} && p.kinds == {} && p.found == p.gone == {}
      ensures problems == 0 && !pruneFailed && released == {} && pinFailures == old(pinFailures)
    {
      hide Runs, GoodRun;
      problems, pruneFailed, released := 0, false, {};
      Take(StartPass(managed));
      var todo := kinds;
      while todo != {}
        invariant Valid() && todo <= kinds <= p.managed && p == NoView.(stage := GATHERING, managed := managed, listed := p.listed)
        invariant problems == 0 && !pruneFailed && released == {} && pinFailures == old(pinFailures)
      {
        var kind :| kind in todo;
        todo := todo - {kind};
        Interfere();
        Take(ListGuest(kind));
      }
      TakeDecision();
    }

    // What the translations and the limit decide, whatever that is.
    method TakeDecision()
      requires Valid() && p.stage == GATHERING && p.tried == {} && p.kinds == {} && p.found == p.gone == {}
      modifies this
      ensures Valid() && p.stage == APPLYING && p.tried == {} && p.kinds == {} && p.found == p.gone == {}
      ensures problems == old(problems) && pruneFailed == old(pruneFailed) && released == old(released) && pinFailures == old(pinFailures)
    {
      hide Runs, GoodRun;
      var want: set<ObjRef>, desired: set<ObjRef>, holders: set<ObjRef> := *, *, *;
      var decision := Decide(want, desired, holders);
      if !Can(Sys(w, p), decision) {
        decision := Decide({}, {}, {});
      }
      Take(decision);
    }

    /** ensureGuestFinalizers: everything wanted is pinned, or the write was at least tried. A write that
        fails is reported, and does not stop the pass. */
    method EnsureGuestFinalizers()
      requires Valid() && p.stage == APPLYING
      modifies this`w, this`p, this`problems, this`pinFailures, this`sched, this`states
      ensures Valid() && p == old(p).(tried := p.tried) && pinFailures >= old(pinFailures) && problems >= old(problems)
      ensures forall r | r in p.want :: p.listed[r].pinned || r in p.tried
      ensures problems == old(problems) ==> pinFailures == old(pinFailures)
    {
      hide Runs, GoodRun;
      var todo := p.want;
      while todo != {}
        invariant Valid() && todo <= p.want && p == old(p).(tried := p.tried) && pinFailures >= old(pinFailures) && problems >= old(problems)
        invariant forall r | r in p.want && r !in todo :: p.listed[r].pinned || r in p.tried
        invariant problems == old(problems) ==> pinFailures == old(pinFailures)
      {
        var r :| r in todo;
        todo := todo - {r};
        if p.listed[r].pinned {
          continue;
        }
        Interfere();
        var ok: bool := *;
        if ok && Unchanged(Sys(w, p), r) {
          Take(Pin(r));
        } else {
          problems, pinFailures := problems + 1, pinFailures + 1;
          Take(PinFails(r));
        }
      }
    }

    /** applyAll: host objects for what is desired, after their guest objects were pinned. */
    method ApplyAll()
      requires Valid() && p.stage == APPLYING
      requires forall r | r in p.want :: p.listed[r].pinned || r in p.tried
      modifies this`w, this`p, this`problems, this`sched, this`states
      ensures Valid() && p == old(p) && problems >= old(problems) && old(sched) <= sched
      ensures problems == old(problems) ==> forall r | r in p.desired :: MakeHost(r) in sched[|old(sched)|..]
    {
      hide Runs, GoodRun;
      ghost var start := sched;
      var todo := p.desired;
      while todo != {}
        invariant Valid() && p == old(p) && todo <= p.desired && problems >= old(problems) && start <= sched
        invariant problems == old(problems) ==> forall r | r in p.desired - todo :: MakeHost(r) in sched[|start|..]
      {
        var r :| r in todo;
        todo := todo - {r};
        ghost var before := sched;
        Interfere();
        assert forall t | t in before[|start|..] :: t in sched[|start|..] by {
          assert sched[|start|..] == before[|start|..] + sched[|before|..];
        }
        var ok: bool := *;
        if ok {
          ghost var now := sched;
          Take(MakeHost(r));
          assert sched[|start|..] == now[|start|..] + [MakeHost(r)];
        } else {
          problems := problems + 1;
        }
      }
    }

    // The list calls of pruneAll.
    method ListHostObjects()
      requires Valid() && p.stage == PRUNING && p.kinds == {} && p.found == p.gone == {}
      modifies this`w, this`p, this`problems, this`pruneFailed, this`sched, this`states
      ensures Valid() && p == old(p).(kinds := p.kinds, found := p.found) && problems >= old(problems)
      ensures old(pruneFailed) ==> pruneFailed
      ensures !pruneFailed ==> p.kinds == p.managed
      ensures pruneFailed && !old(pruneFailed) ==> problems > old(problems)
    {
      hide Runs, GoodRun;
      var todo := p.managed;
      while todo != {}
        invariant Valid() && p == old(p).(kinds := p.kinds, found := p.found) && todo <= p.managed && p.kinds <= p.managed
        invariant problems >= old(problems) && (old(pruneFailed) ==> pruneFailed)
        invariant !pruneFailed ==> p.managed - todo <= p.kinds
        invariant pruneFailed && !old(pruneFailed) ==> problems > old(problems)
      {
        var kind :| kind in todo;
        todo := todo - {kind};
        Interfere();
        var ok: bool := *;
        if ok {
          Take(ListHost(kind));
        } else {
          problems, pruneFailed := problems + 1, true;
        }
      }
    }

    /** pruneAll: what is found and not desired goes; any failure is remembered. */
    method PruneAll()
      requires Valid() && p.stage == APPLYING && p.kinds == {} && p.found == p.gone == {}
      modifies this`w, this`p, this`problems, this`pruneFailed, this`sched, this`states
      ensures Valid() && p == old(p).(stage := PRUNING, kinds := p.kinds, found := p.found, gone := p.gone) && problems >= old(problems)
      ensures !pruneFailed ==> p.kinds == p.managed && p.found - p.desired <= p.gone
      ensures pruneFailed && !old(pruneFailed) ==> problems > old(problems)
    {
      hide Runs, GoodRun;
      Take(StartPrune);
      ListHostObjects();
      var todo := p.found - p.desired;
      ghost var listed := p;
      while todo != {}
        invariant Valid() && p == listed.(gone := p.gone) && todo <= p.found - p.desired && problems >= old(problems)
        invariant !pruneFailed ==> p.kinds == p.managed && p.found - p.desired - todo <= p.gone
        invariant pruneFailed && !old(pruneFailed) ==> problems > old(problems)
      {
        var r :| r in todo;
        todo := todo - {r};
        Interfere();
        var ok: bool := *;
        if ok {
          Take(DeleteHost(r));
        } else {
          problems, pruneFailed := problems + 1, true;
        }
      }
    }

    /** releaseGuestFinalizers: nothing after a failed prune; otherwise every holder that is no longer
        wanted, and nobody else. */
    method ReleaseGuestFinalizers()
      requires Valid() && p.stage == PRUNING
      requires !pruneFailed ==> p.kinds == p.managed && p.found - p.desired <= p.gone
      modifies this`w, this`p, this`problems, this`released, this`sched, this`states
      ensures Valid() && problems >= old(problems)
      ensures pruneFailed ==> released == old(released)
      ensures old(released) <= released <= old(released) + old(p.holders - p.want)
      ensures !pruneFailed && problems == old(problems) ==> old(p.holders - p.want) <= released
    {
      hide Runs, GoodRun;
      if pruneFailed {
        return;
      }
      Take(StartRelease);
      ReleaseHolders();
    }

    // The loop of releaseGuestFinalizers.
    method ReleaseHolders()
      requires Valid() && p.stage == RELEASING
      modifies this`w, this`p, this`problems, this`released, this`sched, this`states
      ensures Valid() && p == old(p) && problems >= old(problems)
      ensures old(released) <= released <= old(released) + (p.holders - p.want)
      ensures problems == old(problems) ==> p.holders - p.want <= released
    {
      hide Runs, GoodRun, Listed;
      var todo := p.holders - p.want;
      while todo != {}
        invariant Valid() && p == old(p) && todo <= p.holders - p.want && problems >= old(problems)
        invariant old(released) <= released <= old(released) + (p.holders - p.want)
        invariant problems == old(problems) ==> p.holders - p.want - todo <= released
      {
        var r :| r in todo;
        todo := todo - {r};
        Interfere();
        var ok: bool := *;
        if ok && Unchanged(Sys(w, p), r) {
          Take(Unpin(r));
          released := released + {r};
        } else {
          problems := problems + 1;
        }
      }
    }

    /** One pass. It is a run of the protocol; and a pass without problems lets go of every guest object
        that was seen holding the finalizer and is no longer wanted. */
    method Run(managed: set<Kind>, kinds: set<Kind>, hostNamespace: bool) returns (ghost decided: View)
      requires Valid() && p.stage == IDLE && kinds <= managed
      modifies this
      ensures Valid() && p.stage == IDLE
      ensures problems == 0 ==> released == decided.holders - decided.want && pinFailures == old(pinFailures)
    {
      hide Runs, GoodRun;
      Gather(managed, kinds);
      decided := p;
      EnsureGuestFinalizers();
      if hostNamespace {
        ApplyAll();
      }
      PruneAll();
      ReleaseGuestFinalizers();
      Take(EndPass);
    }
  }
}
