/** The invariant of the storage protocol in good runs, where finalizer writes on live claims succeed,
    classes stay offered while a claim uses them, and nobody else deletes our host PVCs: the core, and what
    claims, PVs and disks keep beyond it. */
module StorageInvariant {
  import opened StorageMachine
  import opened StorageCore

  /* ----- The live state ----- */

  ghost predicate VaBacked(vas: map<string, Attachment>, claims: map<Volume, Claim>, hostPVCs: set<Volume>) {
    forall a | a in vas :: var v := vas[a].vol; v in claims && claims[v].pinned && v in hostPVCs
  }

  ghost predicate PvBacked(pvs: set<Volume>, claims: map<Volume, Claim>, hostPVCs: set<Volume>) {
    forall v | v in pvs && v in claims && !claims[v].deleting :: claims[v].pinned && v in hostPVCs
  }

  predicate ClassIn(c: Claim, offered: set<string>) {
    c.mappable && c.cls.Some? && c.cls.value in offered
  }

  ghost predicate PinnedOffered(claims: map<Volume, Claim>, offered: set<string>) {
    forall v | v in claims && claims[v].pinned :: ClassIn(claims[v], offered)
  }

  ghost predicate RestLive(w: World) {
    && VaBacked(w.vas, w.claims, w.hostPVCs)
    && PvBacked(w.pvs, w.claims, w.hostPVCs)
    && PinnedOffered(w.claims, w.offered)
  }

  /* ----- What the listings still say about the live state ----- */

  ghost predicate VasKnown(p: View, hostPVCs: set<Volume>) {
    forall a | a in p.vas :: p.vas[a].vol in p.claims && p.vas[a].vol in hostPVCs
  }

  ghost predicate ClassesStay(claims: map<Volume, Claim>, offered: set<string>, p: View) {
    forall v | v in p.claims && v in claims ::
      && (claims[v].pinned ==> ClassIn(claims[v], p.offered))
      && (ClassIn(claims[v], p.offered) ==> ClassIn(claims[v], offered))
  }

  ghost predicate TriedPinned(claims: map<Volume, Claim>, p: View) {
    forall v | v in p.tried ::
      Provisionable(p, v) && (v in claims && !claims[v].deleting ==> claims[v].pinned)
  }

  // What is listed for a live claim, or made for one, is there.
  ghost predicate HostsStay(p: View, hostPVCs: set<Volume>) {
    && (p.stage >= GOT_HOSTS ==> forall v | v in p.hosts && v in p.claims && !p.claims[v].deleting :: v in hostPVCs)
    && (forall v | v in p.made :: v in hostPVCs)
  }

  ghost predicate RestListed(w: World, p: View) {
    && (p.stage >= GOT_VAS ==> VasKnown(p, w.hostPVCs))
    && (p.stage >= GOT_CLASSES ==> ClassesStay(w.claims, w.offered, p))
    && TriedPinned(w.claims, p) && HostsStay(p, w.hostPVCs)
  }

  ghost predicate Rest(s: Sys) {
    RestLive(s.w) && RestListed(s.w, s.p)
  }

  ghost predicate Inv(s: Sys) {
    Core(s) && Rest(s)
  }

  lemma InvInit()
    ensures Inv(Empty)
  {
  }

  /* ----- Steps that change none of it ----- */

  // Attachments of the same volumes, the same claims, disks, PVs and classes; any VMs.
  ghost predicate SameForRest(s: Sys, s': Sys) {
    && s'.w == s.w.(vas := s'.w.vas, vms := s'.w.vms, foreign := s'.w.foreign)
    && (forall a | a in s'.w.vas :: a in s.w.vas && s'.w.vas[a].vol == s.w.vas[a].vol)
    && s'.p == s.p.(vas := s'.p.vas)
    && (forall a | a in s'.p.vas :: a in s.p.vas && s'.p.vas[a].vol == s.p.vas[a].vol)
  }

  lemma SameKeepsRest(s: Sys, s': Sys)
    requires Rest(s) && SameForRest(s, s')
    ensures Rest(s')
  {
    forall v ensures Provisionable(s'.p, v) == Provisionable(s.p, v) {}
  }

  /* ----- The guest and the host ----- */

  lemma NewClaimKeepsRest(s: Sys, t: GuestStep)
    requires Inv(s) && GuestEnabled(s.w, t) && t.ClaimCreate?
    ensures Rest(s.(w := GuestDo(s.w, t)))
  {
    hide CarriedArePinned, SnapFull, SnapHalf;
  }

  lemma OldClaimKeepsRest(s: Sys, t: GuestStep)
    requires Inv(s) && GuestEnabled(s.w, t)
    requires t.ClaimSchedule? || t.ClaimDelete? || t.ClaimVanish?
    ensures Rest(s.(w := GuestDo(s.w, t)))
  {
    hide Core;
  }

  lemma AttachmentsKeepRest(s: Sys, t: GuestStep)
    requires Inv(s) && GuestEnabled(s.w, t)
    requires t.VaCreate? || t.VaDelete? || t.VaVanish?
    ensures Rest(s.(w := GuestDo(s.w, t)))
  {
    hide Core;
    if !t.VaCreate? { SameKeepsRest(s, s.(w := GuestDo(s.w, t))); }
  }

  lemma HostKeepsRest(s: Sys, t: HostStep)
    requires Inv(s) && HostEnabled(s.w, t) && Good(s, Host(t))
    ensures Rest(s.(w := HostDo(s.w, t)))
  {
    hide Core;
    if !t.Offer? && !t.Unoffer? { SameKeepsRest(s, s.(w := HostDo(s.w, t))); }
  }

  /* ----- The syncer ----- */

  lemma GatherKeepsRest(s: Sys, t: Listing)
    requires Inv(s) && ListEnabled(s.p, t)
    ensures Rest(s.(p := ListDo(s.w, s.p, t)))
  {
    hide CarriedArePinned, SnapFull, SnapHalf;
  }

  lemma PinnedLive(w: World, v: Volume)
    requires RestLive(w) && v in w.claims && ClassIn(w.claims[v], w.offered)
    ensures RestLive(w.(claims := w.claims[v := w.claims[v].(pinned := true)]))
  {
  }

  lemma PinnedListed(w: World, p: View, v: Volume)
    requires RestListed(w, p) && p.stage == RUNNING && v in w.claims && ClassIn(w.claims[v], p.offered)
    requires v in p.claims
    ensures RestListed(w.(claims := w.claims[v := w.claims[v].(pinned := true)]), p)
  {
    hide Provisionable;
  }

  // A wanted claim has been tried.
  lemma TriedListed(w: World, p: View, v: Volume)
    requires RestListed(w, p) && Provisionable(p, v) && (v in w.claims && !w.claims[v].deleting ==> w.claims[v].pinned)
    ensures RestListed(w, p.(tried := p.tried + {v}))
  {
    assert forall u :: Provisionable(p.(tried := p.tried + {v}), u) == Provisionable(p, u);
  }

  lemma PinnedKeepsRest(s: Sys, v: Volume)
    requires Rest(s) && SameClaims(s.w.claims, s.p.claims) && Enabled(s, Syncer(PinClaim(v)))
    ensures Rest(Do(s, Syncer(PinClaim(v))))
  {
    hide RestLive, RestListed;
    var w' := Do(s, Syncer(PinClaim(v))).w;
    if w' != s.w {
      OfferedNow(s, v);
      PinnedLive(s.w, v);
      PinnedListed(s.w, s.p, v);
    }
    TriedListed(w', s.p, v);
  }

  // A class that was offered when listed still is, for a claim that is there.
  lemma OfferedNow(s: Sys, v: Volume)
    requires RestListed(s.w, s.p) && SameClaims(s.w.claims, s.p.claims) && s.p.stage == RUNNING
    requires Provisionable(s.p, v) && v in s.w.claims
    ensures ClassIn(s.w.claims[v], s.p.offered) && ClassIn(s.w.claims[v], s.w.offered)
  {
  }

  lemma PinClaimKeepsRest(s: Sys, v: Volume)
    requires Inv(s) && Enabled(s, Syncer(PinClaim(v)))
    ensures Rest(Do(s, Syncer(PinClaim(v))))
  {
    hide Rest;
    PinnedKeepsRest(s, v);
  }

  lemma CreateKeepsRest(s: Sys, t: Call)
    requires Inv(s) && Enabled(s, Syncer(t)) && (t.CreateHost? || t.CreatePV?)
    ensures Rest(Do(s, Syncer(t)))
  {
    hide CarriedArePinned, SnapFull, SnapHalf;
  }

  /** Nothing is attached to, and nothing can be attached to, a volume the pass tears down. */
  lemma TeardownIsUnattached(s: Sys, v: Volume)
    requires Inv(s) && s.p.stage >= RUNNING && (TeardownReady(s.p, v) || Orphan(s.p, v))
    ensures forall a | a in s.w.vas :: s.w.vas[a].vol != v
    ensures forall n :: !Carried(s.w.vms, n, v)
    ensures v in s.w.claims ==> s.w.claims[v].deleting
  {
    if TeardownReady(s.p, v) { TornDownHasNoVa(s, v); }
    forall n ensures !Carried(s.w.vms, n, v) {
      assert !PinnedFor(s.w.vas, n, v);
    }
  }

  lemma DiskGoneKeepsRest(s: Sys, v: Volume)
    requires Rest(s) && s.p.stage >= RUNNING && v in s.w.hostPVCs
    requires forall a | a in s.w.vas :: s.w.vas[a].vol != v
    requires forall a | a in s.p.vas :: s.p.vas[a].vol != v
    requires forall u | u in s.p.made :: u in s.p.claims && !s.p.claims[u].deleting
    requires (v in s.w.claims ==> s.w.claims[v].deleting) && (v in s.p.claims ==> s.p.claims[v].deleting)
    ensures Rest(Sys(s.w.(hostPVCs := s.w.hostPVCs - {v}, deleted := s.w.deleted + {v}), s.p.(gone := s.p.gone + {v})))
  {
  }

  lemma DeleteHostKeepsRest(s: Sys, v: Volume)
    requires Inv(s) && Enabled(s, Syncer(DeleteHost(v)))
    ensures Rest(Do(s, Syncer(DeleteHost(v))))
  {
    hide RestLive;
    TeardownIsUnattached(s, v);
    if v in s.w.hostPVCs {
      assert forall a | a in s.p.vas :: s.p.vas[a].vol != v;
      DiskGoneKeepsRest(s, v);
    } else {
      assert forall u :: Provisionable(s.p.(gone := s.p.gone + {v}), u) == Provisionable(s.p, u);
    }
  }

  lemma DeletePVKeepsRest(s: Sys, v: Volume)
    requires Inv(s) && Enabled(s, Syncer(DeletePV(v)))
    ensures Rest(Do(s, Syncer(DeletePV(v))))
  {
    hide Core;
  }

  /** With every class still offered, only a finished teardown unpins a claim. */
  lemma UnpinsOnlyTornDown(s: Sys, v: Volume)
    requires Inv(s) && Enabled(s, Syncer(UnpinClaim(v)))
    ensures TeardownDone(s.p, v)
  {
  }

  lemma UnpinnedKeepsRest(s: Sys, v: Volume)
    requires Rest(s) && v in s.w.claims && s.w.claims[v].deleting && s.p.stage >= RUNNING
    requires forall a | a in s.w.vas :: s.w.vas[a].vol != v
    ensures Rest(s.(w := s.w.(claims := s.w.claims[v := s.w.claims[v].(pinned := false)])))
  {
  }

  lemma UnpinClaimKeepsRest(s: Sys, v: Volume)
    requires Inv(s) && Enabled(s, Syncer(UnpinClaim(v)))
    ensures Rest(Do(s, Syncer(UnpinClaim(v))))
  {
    hide RestLive, RestListed;
    UnpinsOnlyTornDown(s, v);
    TeardownIsUnattached(s, v);
    UnpinnedKeepsRest(s, v);
  }

  lemma CallKeepsRest(s: Sys, t: Call)
    requires Inv(s) && Enabled(s, Syncer(t)) && Good(s, Syncer(t))
    ensures Rest(Do(s, Syncer(t)))
  {
    hide RestLive, RestListed, Core;
    match t {
      case PinClaim(v) => PinClaimKeepsRest(s, v);
      case CreateHost(v) => CreateKeepsRest(s, t);
      case CreatePV(v) => CreateKeepsRest(s, t);
      case DeleteHost(v) => DeleteHostKeepsRest(s, v);
      case DeletePV(v) => DeletePVKeepsRest(s, v);
      case UnpinClaim(v) => UnpinClaimKeepsRest(s, v);
      case PinClaimFails(_) =>
      case _ => SameKeepsRest(s, Do(s, Syncer(t)));
    }
  }

  lemma RestStep(s: Sys, t: Step)
    requires Inv(s) && Enabled(s, t) && Good(s, t)
    ensures Rest(Do(s, t))
  {
    hide RestLive, RestListed, Core;
    match t {
      case Guest(g) =>
        if g.VaCreate? || g.VaDelete? || g.VaVanish? {
          AttachmentsKeepRest(s, g);
        } else if g.ClaimCreate? {
          NewClaimKeepsRest(s, g);
        } else {
          OldClaimKeepsRest(s, g);
        }
      case Host(h) => HostKeepsRest(s, h);
      case Kube(n, k) => SameKeepsRest(s, Do(s, t));
      case List(l) => GatherKeepsRest(s, l);
      case Syncer(c) => CallKeepsRest(s, c);
    }
  }

  /** Every good step of every party keeps the invariant. */
  lemma InvStep(s: Sys, t: Step)
    requires Inv(s) && Enabled(s, t) && Good(s, t)
    ensures Inv(Do(s, t))
  {
    hide Rest, Core;
    CoreStep(s, t);
    RestStep(s, t);
  }
}
