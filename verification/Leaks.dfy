/** Leak freedom, internal/syncer/pass.go and internal/syncer/writeback.go: a host object never outlives
    the guest object it was made for. Host objects are named by the guest object they come from, which
    takes host names to be distinct; every API call is one step, and the tenant may move between any two. */
module Leaks {
  import opened Ownership
  import opened AddressLimit

  // A guest object: its identity, whether it is being deleted, whether it carries our finalizer.
  datatype Guest = Guest(uid: nat, deleting: bool, pinned: bool)

  datatype World = World(guest: map<ObjRef, Guest>, clock: nat, host: set<ObjRef>)

  // The parts of a pass, in order.
  const IDLE := 0
  const GATHERING := 1
  const APPLYING := 2
  const PRUNING := 3
  const RELEASING := 4

  // What the pass has listed and decided. `want` are the objects to be pinned, `desired` those with a
  // host object, `holders` those seen carrying the finalizer, `tried` those it was written to.
  datatype View = View(
    stage: nat, managed: set<Kind>, listed: map<ObjRef, Guest>, want: set<ObjRef>, desired: set<ObjRef>,
    holders: set<ObjRef>, tried: set<ObjRef>, kinds: set<Kind>, found: set<ObjRef>, gone: set<ObjRef>)

  const NoView := View(IDLE, {}, map[], {}, {}, {}, {}, {}, {}, {})

  datatype Sys = Sys(w: World, p: View)

  datatype Step =
    | GuestCreate(r: ObjRef) | GuestDelete(r: ObjRef) | GuestVanish(r: ObjRef) | HostLost(r: ObjRef)
    | StartPass(managed: set<Kind>) | ListGuest(kind: Kind)
    | Decide(want: set<ObjRef>, desired: set<ObjRef>, holders: set<ObjRef>)
    | Pin(r: ObjRef) | PinFails(r: ObjRef) | MakeHost(r: ObjRef)
    | StartPrune | ListHost(kind: Kind) | DeleteHost(r: ObjRef)
    | StartRelease | Unpin(r: ObjRef) | EndPass

  // A write to a listed guest object lands only if it is still as listed.
  predicate Unchanged(s: Sys, r: ObjRef) {
    r in s.p.listed && r in s.w.guest && s.w.guest[r] == s.p.listed[r]
  }

  predicate Can(s: Sys, t: Step)
    requires Listed(s.p)
  {
    match t
    case GuestCreate(r) => r !in s.w.guest
    case GuestDelete(r) => r in s.w.guest
    // nobody but us takes our finalizer off
    case GuestVanish(r) => r in s.w.guest && s.w.guest[r].deleting && !s.w.guest[r].pinned
    case HostLost(r) => r in s.w.host
    case StartPass(_) => s.p.stage == IDLE
    case ListGuest(kind) => s.p.stage == GATHERING && kind in s.p.managed
    case Decide(want, desired, holders) =>
      && s.p.stage == GATHERING && desired <= want
      && (forall r | r in want :: r in s.p.listed && !s.p.listed[r].deleting)
      && (forall r | r in holders :: r in s.p.listed && s.p.listed[r].pinned)
    case Pin(r) => s.p.stage == APPLYING && r in s.p.want && !s.p.listed[r].pinned && Unchanged(s, r)
    case PinFails(r) => s.p.stage == APPLYING && r in s.p.want
    case MakeHost(r) => s.p.stage == APPLYING && r in s.p.desired && (s.p.listed[r].pinned || r in s.p.tried)
    case StartPrune => s.p.stage == APPLYING
    case ListHost(kind) => s.p.stage == PRUNING && kind in s.p.managed
    case DeleteHost(r) => s.p.stage == PRUNING && r in s.p.found && r !in s.p.desired
    // only after a prune in which nothing failed
    case StartRelease => s.p.stage == PRUNING && s.p.kinds == s.p.managed && s.p.found - s.p.desired <= s.p.gone
    case Unpin(r) => s.p.stage == RELEASING && r in s.p.holders && r !in s.p.want && Unchanged(s, r)
    case EndPass => true
  }

  function OfKind(refs: set<ObjRef>, kind: Kind): set<ObjRef> {
    set r | r in refs && r.kind == kind
  }

  function Do(s: Sys, t: Step): Sys
    requires Listed(s.p) && Can(s, t)
  {
    var w, p := s.w, s.p;
    match t
    case GuestCreate(r) => s.(w := w.(guest := w.guest[r := Guest(w.clock, false, false)], clock := w.clock + 1))
    case GuestDelete(r) => s.(w := w.(guest := w.guest[r := w.guest[r].(deleting := true)]))
    case GuestVanish(r) => s.(w := w.(guest := w.guest - {r}))
    case HostLost(r) => s.(w := w.(host := w.host - {r}))
    case StartPass(managed) => s.(p := NoView.(stage := GATHERING, managed := managed))
    case ListGuest(kind) =>
      s.(p := p.(listed := p.listed + map r | r in w.guest && r.kind == kind :: w.guest[r]))
    case Decide(want, desired, holders) => s.(p := p.(stage := APPLYING, want := want, desired := desired, holders := holders))
    case Pin(r) => Sys(w.(guest := w.guest[r := w.guest[r].(pinned := true)]), p.(tried := p.tried + {r}))
    case PinFails(r) => s.(p := p.(tried := p.tried + {r}))
    case MakeHost(r) => s.(w := w.(host := w.host + {r}))
    case StartPrune => s.(p := p.(stage := PRUNING))
    case ListHost(kind) => s.(p := p.(kinds := p.kinds + {kind}, found := p.found + OfKind(w.host, kind)))
    case DeleteHost(r) => Sys(w.(host := w.host - {r}), p.(gone := p.gone + {r}))
    case StartRelease => s.(p := p.(stage := RELEASING))
    case Unpin(r) => s.(w := w.(guest := w.guest[r := w.guest[r].(pinned := false)]))
    case EndPass => s.(p := NoView)
  }

  // What was decided on was listed.
  predicate Listed(p: View) {
    && p.desired <= p.want && p.want <= p.listed.Keys && p.holders <= p.listed.Keys
    && (forall r | r in p.listed :: r.kind in p.managed)
  }

  const Empty := Sys(World(map[], 0, {}), NoView)

  ghost predicate Runs(sched: seq<Step>, states: seq<Sys>) {
    && |states| == |sched| + 1 && states[0] == Empty
    && forall i | 0 <= i < |sched| :: Listed(states[i].p) && Can(states[i], sched[i]) && states[i + 1] == Do(states[i], sched[i])
  }

  // Finalizer writes succeed.
  ghost predicate GoodRun(sched: seq<Step>, states: seq<Sys>) {
    Runs(sched, states) && forall i | 0 <= i < |sched| :: !sched[i].PinFails?
  }

  /* ----- Prune leaves nothing undesired ----- */

  ghost predicate PruneKnows(s: Sys) {
    && Listed(s.p) && s.p.gone <= s.p.found && (forall r | r in s.p.found :: r.kind in s.p.kinds)
    && (s.p.stage <= APPLYING ==> s.p.kinds == {} && s.p.found == s.p.gone == {})
    && (s.p.stage == PRUNING ==> forall r | r in s.w.host && r.kind in s.p.kinds :: r in s.p.found && r !in s.p.gone)
    && (s.p.stage >= RELEASING ==> forall r | r in s.w.host && r.kind in s.p.managed :: r in s.p.desired)
  }

  lemma PruneKnowsStep(s: Sys, t: Step)
    requires PruneKnows(s) && Can(s, t)
    ensures PruneKnows(Do(s, t))
  {
  }

  lemma {:induction false} PruneAlwaysKnows(sched: seq<Step>, states: seq<Sys>, i: nat)
    requires Runs(sched, states) && i < |states|
    ensures PruneKnows(states[i])
    decreases i
  {
    if i > 0 {
      PruneAlwaysKnows(sched, states, i - 1);
      PruneKnowsStep(states[i - 1], sched[i - 1]);
    }
  }

  /** A finalizer is taken off only when the guest object has no host object any more: in every run,
      whatever fails. */
  lemma ReleasedHasNothing(sched: seq<Step>, states: seq<Sys>, i: nat)
    requires Runs(sched, states) && i < |sched| && sched[i].Unpin?
    ensures sched[i].r !in states[i].w.host
  {
    PruneAlwaysKnows(sched, states, i);
  }

  /* ----- No leak ----- */

  predicate Held(w: World, r: ObjRef) {
    r in w.guest && w.guest[r].pinned
  }

  ghost predicate NoLeakState(s: Sys) {
    && (forall r | r in s.w.host :: Held(s.w, r))
    && (s.p.stage <= APPLYING ==> forall r | r in s.p.listed && s.p.listed[r].pinned :: Held(s.w, r))
    && (s.p.stage <= APPLYING ==> forall r | r in s.p.tried :: Held(s.w, r))
  }

  lemma NoLeakStep(s: Sys, t: Step)
    requires PruneKnows(s) && NoLeakState(s) && Can(s, t) && !t.PinFails?
    ensures NoLeakState(Do(s, t))
  {
  }

  /** Leak freedom: if finalizer writes succeed, then whatever host calls fail, in every reachable state
      every host object's guest object is there and pinned. */
  lemma {:induction false} NoLeak(sched: seq<Step>, states: seq<Sys>, i: nat)
    requires GoodRun(sched, states) && i < |states|
    ensures NoLeakState(states[i])
    ensures forall r | r in states[i].w.host :: r in states[i].w.guest && states[i].w.guest[r].pinned
    decreases i
  {
    if i > 0 {
      NoLeak(sched, states, i - 1);
      PruneAlwaysKnows(sched, states, i - 1);
      NoLeakStep(states[i - 1], sched[i - 1]);
    }
  }

  /* ----- Without the assumption, exactly ----- */

  ghost predicate AllHeld(w: World) {
    forall r | r in w.host :: Held(w, r)
  }

  // What ensureGuestFinalizers is for, and does not enforce when its write fails.
  ghost predicate MakesHeldOnly(sched: seq<Step>, states: seq<Sys>)
    requires |sched| <= |states|
  {
    forall j | 0 <= j < |sched| && sched[j].MakeHost? :: Held(states[j].w, sched[j].r)
  }

  // Nothing but making a host object for a guest object that is not held breaks the guarantee.
  lemma HeldStep(s: Sys, t: Step)
    requires PruneKnows(s) && AllHeld(s.w) && Can(s, t)
    ensures AllHeld(Do(s, t).w) <==> (t.MakeHost? ==> Held(s.w, t.r))
  {
    if t.MakeHost? { assert t.r in Do(s, t).w.host; }
  }

  lemma {:induction false} HeldThroughout(sched: seq<Step>, states: seq<Sys>, i: nat)
    requires Runs(sched, states) && i < |states| && MakesHeldOnly(sched, states)
    ensures AllHeld(states[i].w)
    decreases i
  {
    if i > 0 {
      HeldThroughout(sched, states, i - 1);
      PruneAlwaysKnows(sched, states, i - 1);
      HeldStep(states[i - 1], sched[i - 1]);
    }
  }

  /** Leak freedom, exactly: in every run, whatever writes fail, every host object's guest object is
      there and pinned throughout if and only if every host object was made for a guest object that was
      there and pinned at that moment. */
  lemma LeakFreeExactly(sched: seq<Step>, states: seq<Sys>)
    requires Runs(sched, states)
    ensures (forall i | 0 <= i < |states| :: AllHeld(states[i].w)) <==> MakesHeldOnly(sched, states)
  {
    hide AllHeld;
    if MakesHeldOnly(sched, states) {
      forall i | 0 <= i < |states| ensures AllHeld(states[i].w) {
        HeldThroughout(sched, states, i);
      }
    } else {
      var j :| 0 <= j < |sched| && sched[j].MakeHost? && !Held(states[j].w, sched[j].r);
      PruneAlwaysKnows(sched, states, j);
      if AllHeld(states[j].w) {
        HeldStep(states[j], sched[j]);
        assert !AllHeld(states[j + 1].w);
      }
    }
  }

  lemma Extend(sched: seq<Step>, states: seq<Sys>, t: Step) returns (sched': seq<Step>, states': seq<Sys>, s: Sys)
    requires Runs(sched, states) && Listed(states[|sched|].p) && Can(states[|sched|], t)
    ensures sched' == sched + [t] && s == Do(states[|sched|], t) && states' == states + [s]
    ensures Runs(sched', states') && |states'| == |sched'| + 1 && states'[|sched'|] == s
  {
    s := Do(states[|sched|], t);
    sched', states' := sched + [t], states + [s];
  }

  // A pass over one guest object, up to what it decides.
  lemma DecidedOne(r: ObjRef) returns (sched: seq<Step>, states: seq<Sys>, s: Sys)
    ensures Runs(sched, states) && |states| == |sched| + 1 && states[|sched|] == s && Listed(s.p)
    ensures var one := map[r := Guest(0, false, false)];
            && s.w == World(one, 1, {}) && s.p.stage == APPLYING && s.p.listed == one
            && s.p.want == s.p.desired == {r} && s.p.tried == {} && s.p.holders == {}
  {
    hide Runs;
    sched, states := [], [Empty];
    EmptyRuns();
    sched, states, s := Extend(sched, states, GuestCreate(r));
    sched, states, s := Extend(sched, states, StartPass({r.kind}));
    sched, states, s := Extend(sched, states, ListGuest(r.kind));
    assert s.p.listed == map[r := Guest(0, false, false)];
    sched, states, s := Extend(sched, states, Decide({r}, {r}, {}));
  }

  // Its finalizer write fails.
  lemma MadeUnpinned(r: ObjRef) returns (sched: seq<Step>, states: seq<Sys>, s: Sys)
    ensures Runs(sched, states) && |states| == |sched| + 1 && states[|sched|] == s && Listed(s.p)
    ensures s.w == World(map[r := Guest(0, false, false)], 1, {r})
  {
    hide Runs;
    sched, states, s := DecidedOne(r);
    sched, states, s := Extend(sched, states, PinFails(r));
    sched, states, s := Extend(sched, states, MakeHost(r));
  }

  lemma EmptyRuns()
    ensures Runs([], [Empty])
  {
  }

  /** A failed finalizer write does not stop the pass, and then the guarantee is gone: the guest object
      disappears under a host object. */
  lemma FailedPinLeaks(r: ObjRef) returns (sched: seq<Step>, states: seq<Sys>)
    ensures Runs(sched, states) && var w := states[|sched|].w; r in w.host && r !in w.guest
  {
    hide Runs;
    var s: Sys;
    sched, states, s := MadeUnpinned(r);
    sched, states, s := Extend(sched, states, GuestDelete(r));
    sched, states, s := Extend(sched, states, GuestVanish(r));
  }
}
