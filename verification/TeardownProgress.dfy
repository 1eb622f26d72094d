/** Deleting a TenantCluster comes to an end: KubeVirt's work on volumes of ours runs out, and a pass that
    cannot finish has left it some. */
module TeardownProgress {
  import opened Hotplug
  import opened StorageMachine
  import opened KubeVirtProgress
  import opened TeardownMachine
  import opened TeardownSafety

  ghost function LoadOf(s: State): nat {
    TotalWeight(s.vms, Names(s.mine))
  }

  ghost predicate EffectiveOn(s: State, n: Node, k: KvStep) {
    n in s.vms && Effective(s.vms[n], k, Names(s.mine))
  }

  // KubeVirt has something to do for a volume of ours.
  ghost predicate Busy(s: State) {
    exists n, k :: EffectiveOn(s, n, k)
  }

  /* ----- No move adds to the work ----- */

  // A request that is not an add of ours.
  lemma AskingWeighsNothing(s: State, n: Node, r: Request)
    requires n in s.vms && (r.Remove? || r.name !in Names(s.mine))
    ensures LoadOf(s.(vms := Asking(s, n, r))) == LoadOf(s)
    ensures Busy(s) ==> Busy(s.(vms := Asking(s, n, r)))
  {
    var s' := s.(vms := Asking(s, n, r));
    AddWeightAppend(s.vms[n].requests, r, Names(s.mine));
    TotalUpdate(s.vms, n, s'.vms[n], Names(s.mine));
    if m, k :| EffectiveOn(s, m, k) {
      assert EffectiveOn(s', m, k);
    }
  }

  lemma StepLoad(s: State, n: Node, k: KvStep)
    requires n in s.vms && KvEnabled(s.vms[n], k)
    ensures var s' := s.(vms := s.vms[n := KvDo(s.vms[n], k)]);
            && LoadOf(s') <= LoadOf(s)
            && (LoadOf(s') < LoadOf(s) <==> EffectiveOn(s, n, k))
            && (Busy(s) && !EffectiveOn(s, n, k) ==> Busy(s'))
  {
    var s', names := s.(vms := s.vms[n := KvDo(s.vms[n], k)]), Names(s.mine);
    StepWeight(s.vms[n], k, names);
    TotalUpdate(s.vms, n, KvDo(s.vms[n], k), names);
    if m, j :| EffectiveOn(s, m, j) && !EffectiveOn(s, n, k) {
      if m == n {
        var j' := BusyStaysBusy(s.vms[n], k, j, names);
        assert EffectiveOn(s', n, j');
      } else {
        assert EffectiveOn(s', m, j);
      }
    }
  }

  lemma LossLoad(s: State, n: Node)
    requires n in s.vms
    ensures var s' := s.(vms := s.vms - {n});
            LoadOf(s') <= LoadOf(s) && (Busy(s) && LoadOf(s') == LoadOf(s) ==> Busy(s'))
    ensures LoadOf(s.(vms := s.vms - {n})) == LoadOf(s) ==> forall v | v in s.mine :: !InSpec(s.vms[n].spec, NameFor(v))
  {
    var s', names := s.(vms := s.vms - {n}), Names(s.mine);
    TotalSplit(s.vms, n, names);
    if m, k :| EffectiveOn(s, m, k) {
      if m == n { StepWeight(s.vms[n], k, names); } else { assert EffectiveOn(s', m, k); }
    }
    forall v | v in s.mine && InSpec(s.vms[n].spec, NameFor(v)) ensures Weight(s.vms[n], names) > 0 {
      InSpecWeighs(s.vms[n].spec, s.vms[n].status, NameFor(v), names);
    }
  }

  lemma GainLoad(s: State, n: Node, spec: seq<SpecVolume>)
    requires n !in s.vms && forall i | 0 <= i < |spec| :: spec[i].name !in Names(s.mine)
    ensures var s' := s.(vms := s.vms[n := Machine(spec, [], [])]);
            LoadOf(s') == LoadOf(s) && (Busy(s) ==> Busy(s'))
  {
    var s', names := s.(vms := s.vms[n := Machine(spec, [], [])]), Names(s.mine);
    TotalSplit(s'.vms, n, names);
    assert s'.vms - {n} == s.vms;
    PlainSpecWeighsNothing(spec, names);
    if m, k :| EffectiveOn(s, m, k) { assert EffectiveOn(s', m, k); }
  }

  lemma SameLoad(s: State, s': State)
    requires s'.vms == s.vms && s'.mine == s.mine
    ensures LoadOf(s') == LoadOf(s) && (Busy(s) ==> Busy(s'))
  {
    if m, k :| EffectiveOn(s, m, k) { assert EffectiveOn(s', m, k); }
  }

  /** Teardown issues no addvolume, so no move of anybody raises the work left; and a move that leaves it
      as it is leaves KubeVirt as busy as it was. */
  lemma LoadNeverRises(s: State, t: Move)
    requires Can(s, t)
    ensures LoadOf(Make(s, t)) <= LoadOf(s)
    ensures Busy(s) && LoadOf(Make(s, t)) == LoadOf(s) ==> Busy(Make(s, t))
  {
    hide Effective, Weight, TotalWeight, LoadOf, Busy, KvDo;
    match t {
      case KubeVirt(n, k) => StepLoad(s, n, k);
      case VmLost(n) => LossLoad(s, n);
      case VmMade(n, spec) => GainLoad(s, n, spec);
      case VmAsked(n, r) => AskingWeighsNothing(s, n, r);
      case Detach(v, n) =>
        AskingWeighsNothing(s, n, Remove(NameFor(v)));
        SameLoad(s.(vms := Asking(s, n, Remove(NameFor(v)))), Make(s, t));
      case Purge(n, name) =>
        AskingWeighsNothing(s, n, Remove(name));
        SameLoad(s.(vms := Asking(s, n, Remove(name))), Make(s, t));
      case _ => SameLoad(s, Make(s, t));
    }
  }

  /* ----- A pass while KubeVirt has nothing to do ----- */

  // With nothing to do, what a VM has of ours is in its spec and reported, and not about to change.
  lemma IdleIsSettled(s: State, n: Node, v: string)
    requires n in s.vms && v in s.mine
    ensures Busy(s) || !Queued(s.vms[n].requests, NameFor(v))
    ensures Busy(s) || (Reported(s.vms[n].status, NameFor(v)) <==> InSpec(s.vms[n].spec, NameFor(v)))
  {
    var m, name := s.vms[n], NameFor(v);
    assert name in Names(s.mine);
    if Queued(m.requests, name) {
      var i :| 0 <= i < |m.requests| && m.requests[i].Add? && m.requests[i].name == name;
      assert EffectiveOn(s, n, Apply(i));
    }
    if InSpec(m.spec, name) && !Reported(m.status, name) {
      assert EffectiveOn(s, n, Observe(name, ""));
    }
    if !InSpec(m.spec, name) && Reported(m.status, name) {
      assert EffectiveOn(s, n, Drop(name));
    }
  }

  // So the listings agree with the VMs, and nothing has been asked.
  ghost predicate Mirrors(s: State, n: Node, v: string) {
    var p, here := s.pass, n in s.vms && InSpec(s.vms[n].spec, NameFor(v));
    && (n, NameFor(v)) !in p.asked
    && (p.stage == GotVMs && n in p.snap ==> (ShownOn(p, n, NameFor(v)) <==> here))
    && (ShownOn(p, n, NameFor(v)) ==> here && SeenOn(p, n, NameFor(v)).inSpec)
  }

  ghost predicate Quiet(s: State) {
    forall n, v | v in s.mine :: Mirrors(s, n, v)
  }

  // A removal of what a VM has in its spec is work.
  lemma AskingIsBusy(s: State, n: Node, v: string)
    requires n in s.vms && v in s.mine && InSpec(s.vms[n].spec, NameFor(v))
    ensures Busy(s.(vms := Asking(s, n, Remove(NameFor(v)))))
  {
    var s' := s.(vms := Asking(s, n, Remove(NameFor(v))));
    assert EffectiveOn(s', n, Apply(|s.vms[n].requests|));
  }

  lemma BusyIsOfVms(s: State, s': State)
    requires s'.vms == s.vms && s'.mine == s.mine && Busy(s)
    ensures Busy(s')
  {
    SameLoad(s, s');
  }

  // What is in the specs does not change without work being done.
  lemma SpecKept(s: State, t: Move, n: Node, v: string)
    requires Can(s, t) && v in s.mine && LoadOf(Make(s, t)) == LoadOf(s)
    ensures n in Make(s, t).vms && InSpec(Make(s, t).vms[n].spec, NameFor(v)) <==>
            n in s.vms && InSpec(s.vms[n].spec, NameFor(v))
  {
    hide Effective, Weight, TotalWeight, LoadOf, Busy, KvDo;
    assert NameFor(v) in Names(s.mine);
    match t {
      case KubeVirt(m, k) =>
        StepLoad(s, m, k);
        EffectiveNot(s, m, k, v);
      case VmLost(m) => LossLoad(s, m);
      case _ =>
    }
  }

  lemma EffectiveNot(s: State, n: Node, k: KvStep, v: string)
    requires n in s.vms && KvEnabled(s.vms[n], k) && !EffectiveOn(s, n, k) && v in s.mine
    ensures InSpec(KvDo(s.vms[n], k).spec, NameFor(v)) == InSpec(s.vms[n].spec, NameFor(v))
  {
    IneffectiveKeeps(s.vms[n], k, Names(s.mine));
    assert NameFor(v) in Names(s.mine);
  }

  lemma ListingMirrors(s: State, t: Move, n: Node, v: string)
    requires Can(s, t) && (t.GetVMs? || t.GetVMIs?) && v in s.mine && Mirrors(s, n, v) && !Busy(s)
    ensures Mirrors(Make(s, t), n, v)
  {
    if n in s.vms {
      IdleIsSettled(s, n, v);
      if t.GetVMs? {
        MergeMeaning(s.vms[n].spec, s.vms[n].requests, [], NameFor(v));
      } else if n in s.pass.snap {
        StatusMerged(s.pass.snap[n], s.vms[n].status, NameFor(v));
      }
    }
  }

  // A move between two idle moments, with no work done.
  lemma QuietStep(s: State, t: Move)
    requires Can(s, t) && Quiet(s) && !Busy(s) && !Busy(Make(s, t)) && LoadOf(Make(s, t)) == LoadOf(s)
    ensures Quiet(Make(s, t))
  {
    hide Busy, LoadOf, KvDo, Done;
    forall n, v | v in s.mine ensures Mirrors(Make(s, t), n, v) {
      assert Mirrors(s, n, v);
      if t.GetVMs? || t.GetVMIs? {
        ListingMirrors(s, t, n, v);
      } else {
        SpecKept(s, t, n, v);
        NoneAsked(s, t, n, v);
        SameSnapshot(s, t);
      }
    }
  }

  lemma NoneAsked(s: State, t: Move, n: Node, v: string)
    requires Can(s, t) && v in s.mine && Mirrors(s, n, v) && !Busy(Make(s, t))
    ensures (n, NameFor(v)) !in Make(s, t).pass.asked
  {
    hide Busy, KvDo, Done;
    if (t.Detach? && t.v == v && t.n == n) || (t.Purge? && t.name == NameFor(v) && t.n == n) {
      AskingIsBusy(s, n, v);
      BusyIsOfVms(s.(vms := Asking(s, n, Remove(NameFor(v)))), Make(s, t));
    }
  }

  // The volumes whose claim the pass found gone were made for this tenant.
  ghost predicate OwnOrphans(s: State) {
    forall r | r in s.pass.missing :: r.1 in Names(s.mine)
  }

  // A complete pass that is not done stumbled over a volume of ours, and asked for it.
  lemma Stumbles(s: State) returns (n: Node, v: string)
    requires Complete(s.pass) && !Done(s.pass) && s.pass.listed <= s.mine && OwnOrphans(s)
    ensures v in s.mine && ShownOn(s.pass, n, NameFor(v))
    ensures SeenOn(s.pass, n, NameFor(v)).inSpec ==> (n, NameFor(v)) in s.pass.asked
  {
    var p := s.pass;
    if u :| u in p.listed && Attached(p, u) {
      v := u;
      n :| n in p.snap && NameFor(u) in p.snap[n];
    } else {
      var name;
      n, name :| Derived(p, n, name) && (n, name) !in p.present;
      assert Looked(p, n, name);
      v :| v in s.mine && NameFor(v) == name;
    }
  }

  /** A pass that cannot finish leaves KubeVirt work: it never ends quietly, waiting for nothing. */
  lemma UnfinishedIsNotQuiet(s: State)
    requires Complete(s.pass) && !Done(s.pass) && s.pass.listed <= s.mine && OwnOrphans(s)
    ensures !Quiet(s)
  {
    var n, v := Stumbles(s);
    assert !Mirrors(s, n, v);
  }

  /* ----- Over time ----- */

  type Timeline = nat -> State
  type Schedule = nat -> Move

  ghost predicate StepAt(at: Timeline, moves: Schedule, i: nat) {
    Can(at(i), moves(i)) && at(i + 1) == Make(at(i), moves(i))
  }

  ghost predicate Trace(at: Timeline, moves: Schedule) {
    Start(at(0)) && forall i: nat :: StepAt(at, moves, i)
  }

  ghost function LoadAt(at: Timeline, i: nat): nat {
    LoadOf(at(i))
  }

  ghost predicate BusyAt(at: Timeline, i: nat) {
    Busy(at(i))
  }

  ghost predicate ReleasedAt(at: Timeline, i: nat) {
    at(i).released
  }

  ghost predicate AlwaysBusy(at: Timeline, i: nat) {
    forall j: nat :: j >= i ==> BusyAt(at, j)
  }

  // KubeVirt does some of what it has to do.
  ghost predicate WorksAt(at: Timeline, moves: Schedule, i: nat) {
    moves(i).KubeVirt? && EffectiveOn(at(i), moves(i).n, moves(i).k)
  }

  ghost predicate WorksAfter(at: Timeline, moves: Schedule, i: nat) {
    exists j: nat :: j >= i && WorksAt(at, moves, j)
  }

  // A pass ends in which no call failed, and which found no other tenant's volume without its claim; it
  // drops the finalizer if it may.
  ghost predicate EndsWell(at: Timeline, moves: Schedule, i: nat) {
    Complete(at(i).pass) && OwnOrphans(at(i)) && moves(i) == if Done(at(i).pass) then Release else Stop
  }

  ghost predicate EndsAfter(at: Timeline, moves: Schedule, i: nat) {
    exists k: nat :: k >= i && EndsWell(at, moves, k)
  }

  // As long as the finalizer is there such passes keep ending, and KubeVirt does not put off forever what
  // it could do all along.
  ghost predicate Fair(at: Timeline, moves: Schedule) {
    && (forall i: nat :: !ReleasedAt(at, i) ==> EndsAfter(at, moves, i))
    && (forall i: nat :: AlwaysBusy(at, i) ==> WorksAfter(at, moves, i))
  }

  lemma {:induction false} ListsAlways(at: Timeline, moves: Schedule, i: nat)
    requires Trace(at, moves)
    ensures ListsKnow(at(i))
  {
    hide ListsKnow;
    if i == 0 {
      StartSafe(at(0));
    } else {
      ListsAlways(at, moves, i - 1);
      assert StepAt(at, moves, i - 1);
      ListsStep(at(i - 1), moves(i - 1));
    }
  }

  lemma LoadStep(at: Timeline, moves: Schedule, i: nat)
    requires Trace(at, moves)
    ensures LoadAt(at, i + 1) <= LoadAt(at, i)
    ensures BusyAt(at, i) && LoadAt(at, i + 1) == LoadAt(at, i) ==> BusyAt(at, i + 1)
  {
    assert StepAt(at, moves, i);
    LoadNeverRises(at(i), moves(i));
  }

  lemma {:induction false} LoadUpTo(at: Timeline, moves: Schedule, i: nat, k: nat)
    requires Trace(at, moves) && k >= i
    ensures LoadAt(at, k) <= LoadAt(at, i)
    decreases k - i
  {
    if i < k {
      LoadStep(at, moves, i);
      LoadUpTo(at, moves, i + 1, k);
    }
  }

  lemma {:induction false} LighterBefore(at: Timeline, moves: Schedule, i: nat, k: nat)
    requires Trace(at, moves) && BusyAt(at, i) && k >= i && !BusyAt(at, k)
    ensures LoadAt(at, k) < LoadAt(at, i)
    decreases k - i
  {
    LoadStep(at, moves, i);
    if LoadAt(at, i + 1) < LoadAt(at, i) {
      LoadUpTo(at, moves, i + 1, k);
    } else {
      LighterBefore(at, moves, i + 1, k);
    }
  }

  // From a busy moment on, the work gets less some time.
  lemma LighterLater(at: Timeline, moves: Schedule, i: nat) returns (k: nat)
    requires Trace(at, moves) && Fair(at, moves) && BusyAt(at, i)
    ensures k >= i && LoadAt(at, k) < LoadAt(at, i)
  {
    if AlwaysBusy(at, i) {
      assert WorksAfter(at, moves, i);
      var j: nat :| j >= i && WorksAt(at, moves, j);
      assert StepAt(at, moves, j);
      StepLoad(at(j), moves(j).n, moves(j).k);
      LoadUpTo(at, moves, i, j);
      k := j + 1;
    } else {
      k :| k >= i && !BusyAt(at, k);
      LighterBefore(at, moves, i, k);
    }
  }

  // From a moment between passes to some later one: KubeVirt was busy, or got something done, or all was quiet.
  ghost predicate Stirred(at: Timeline, i: nat, k: nat) {
    LoadAt(at, k) < LoadAt(at, i) || exists j: nat :: i <= j <= k && BusyAt(at, j)
  }

  lemma {:induction false} StirredOrQuiet(at: Timeline, moves: Schedule, i: nat, k: nat)
    requires Trace(at, moves) && at(i).pass == NoPass && k >= i
    ensures Stirred(at, i, k) || Quiet(at(k))
    decreases k - i
  {
    hide Busy, LoadOf, Can, Make;
    if k == i {
      assert Quiet(at(i));
    } else {
      LoadUpTo(at, moves, i, k - 1);
      LoadStep(at, moves, k - 1);
      assert StepAt(at, moves, k - 1);
      if !Stirred(at, i, k) {
        assert !BusyAt(at, k - 1) && !BusyAt(at, k);
        StirredOrQuiet(at, moves, i, k - 1);
        QuietStep(at(k - 1), moves(k - 1));
      }
    }
  }

  // A pass that begins after moment i ends well and cannot finish: there is less work left some time.
  lemma StuckIsLighter(at: Timeline, moves: Schedule, i: nat, k: nat) returns (m: nat)
    requires Trace(at, moves) && Fair(at, moves) && at(i).pass == NoPass && k >= i
    requires EndsWell(at, moves, k) && moves(k) == Stop
    ensures m >= i && LoadAt(at, m) < LoadAt(at, i)
  {
    hide Can, Make, Complete, Done, Busy, LoadOf, Quiet, ListsKnow;
    ListedMine(at, moves, k);
    UnfinishedIsNotQuiet(at(k));
    StirredOrQuiet(at, moves, i, k);
    if j: nat :| i <= j <= k && BusyAt(at, j) {
      LoadUpTo(at, moves, i, j);
      m := LighterLater(at, moves, j);
    } else {
      m := k;
    }
  }

  // One more pass drops the finalizer, or there is less work left some time.
  lemma ReleasedOrLighter(at: Timeline, moves: Schedule, i: nat) returns (k: nat)
    requires Trace(at, moves) && Fair(at, moves) && !ReleasedAt(at, i)
    ensures k >= i && (ReleasedAt(at, k) || LoadAt(at, k) < LoadAt(at, i))
  {
    hide Can, Make, Complete, Done, Busy, LoadOf, Quiet, ListsKnow;
    assert EndsAfter(at, moves, i);
    var a: nat :| a >= i && EndsWell(at, moves, a);
    if moves(a) == Release {
      PassEnds(at, moves, a);
      k := a + 1;
    } else {
      PassEnds(at, moves, a);
      LoadUpTo(at, moves, i, a + 1);
      if ReleasedAt(at, a + 1) {
        k := a + 1;
      } else {
        assert EndsAfter(at, moves, a + 1);
        var b: nat :| b >= a + 1 && EndsWell(at, moves, b);
        if moves(b) == Release {
          PassEnds(at, moves, b);
          k := b + 1;
        } else {
          k := StuckIsLighter(at, moves, a + 1, b);
        }
      }
    }
  }

  // How a pass ends.
  lemma PassEnds(at: Timeline, moves: Schedule, i: nat)
    requires Trace(at, moves)
    ensures moves(i) == Release ==> ReleasedAt(at, i + 1)
    ensures moves(i) == Stop ==> at(i + 1).pass == NoPass
  {
    assert StepAt(at, moves, i);
  }

  lemma ListedMine(at: Timeline, moves: Schedule, i: nat)
    requires Trace(at, moves)
    ensures at(i).pass.listed <= at(i).mine
  {
    ListsAlways(at, moves, i);
  }

  /** Teardown terminates: whatever KubeVirt held at the start, whatever others do in the namespace, other
      tenants' hotplugs included, and however the moves interleave, some pass drops the finalizer. */
  lemma {:induction false} TeardownTerminates(at: Timeline, moves: Schedule, i: nat) returns (k: nat)
    requires Trace(at, moves) && Fair(at, moves)
    ensures k >= i && ReleasedAt(at, k)
    decreases LoadAt(at, i)
  {
    k := i;
    if !ReleasedAt(at, i) {
      k := ReleasedOrLighter(at, moves, i);
      if !ReleasedAt(at, k) {
        k := TeardownTerminates(at, moves, k);
      }
    }
  }

  /* ----- Such timelines exist ----- */

  // A run, and then nothing.
  function Continued(states: seq<State>): Timeline
    requires states != []
  {
    (i: nat) => if i < |states| then states[i] else states[|states| - 1]
  }

  function Resting(moves: seq<Move>): Schedule {
    (i: nat) => if i < |moves| then moves[i] else Nothing
  }

  /** A run that drops the finalizer while KubeVirt has nothing left to do goes on as a fair timeline. */
  lemma ReleasedIsFair(moves: seq<Move>, states: seq<State>)
    requires TeardownRun(moves, states) && moves != [] && moves[|moves| - 1] == Release
    requires OwnOrphans(states[|moves| - 1]) && !Busy(states[|moves|])
    ensures Trace(Continued(states), Resting(moves)) && Fair(Continued(states), Resting(moves))
  {
    hide Busy;
    var at, by', n := Continued(states), Resting(moves), |moves|;
    forall i: nat ensures StepAt(at, by', i) {}
    assert EndsWell(at, by', n - 1);
    forall i: nat | i >= n ensures ReleasedAt(at, i) { assert states[n] == Make(states[n - 1], Release); }
    forall i: nat | !ReleasedAt(at, i) ensures EndsAfter(at, by', i) { assert i <= n - 1; }
    forall i: nat ensures !AlwaysBusy(at, i) { assert !BusyAt(at, i + n); }
  }
}
