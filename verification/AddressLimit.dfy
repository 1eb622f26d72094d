/** Which endpoints get an address, applyAddressLimit in internal/syncer/pass.go: the order of the
    claims, the counting loop, and what it comes to over many passes. */
module AddressLimit {
  import opened Names
  import opened Ownership
  import opened Ordering

  // guestObjRef
  datatype ObjRef = ObjRef(kind: Kind, ns: string, name: string)

  datatype Claim = Claim(ref: ObjRef, hostName: HostName, created: int, uid: string)

  // A claim's place on the host: Services and Gateways have names of their own.
  type Slot = (Kind, HostName)

  function SlotOf(c: Claim): Slot {
    (c.ref.kind, c.hostName)
  }

  // By creation, then by UID.
  predicate Before(a: Claim, b: Claim) {
    a.created < b.created || (a.created == b.created && LexLess(a.uid, b.uid))
  }

  ghost predicate UniqueIds(dom: set<Claim>) {
    forall a, b | a in dom && b in dom :: a == b || a.uid != b.uid
  }

  lemma BeforeOrders(dom: set<Claim>)
    requires UniqueIds(dom)
    ensures Orders(Before, dom)
  {
    forall a | a in dom ensures !Before(a, a) { LexIrreflexive(a.uid); }
    forall a, b | a in dom && b in dom ensures a == b || Before(a, b) || Before(b, a) { LexConnected(a.uid, b.uid); }
    forall a, b, c | a in dom && b in dom && c in dom && Before(a, b) && Before(b, c) ensures Before(a, c) {
      if a.created == b.created == c.created { LexTransitive(a.uid, b.uid, c.uid); }
    }
  }

  /* ----- The counting loop ----- */

  // The claims admitted, walking the sorted list. `held` are the host names already published.
  function Admitted(c: seq<Claim>, held: set<Slot>, limit: int): (r: seq<Claim>)
    ensures |r| <= |c|
  {
    if c == [] then []
    else
      var before, last := Admitted(c[..|c| - 1], held, limit), c[|c| - 1];
      if SlotOf(last) in held || |before| < limit then before + [last] else before
  }

  function RefusedClaims(c: seq<Claim>, held: set<Slot>, limit: int): seq<Claim> {
    if c == [] then []
    else
      var before, last := RefusedClaims(c[..|c| - 1], held, limit), c[|c| - 1];
      if SlotOf(last) in held || |Admitted(c[..|c| - 1], held, limit)| < limit then before else before + [last]
  }

  /** The counting loop of applyAddressLimit, over the sorted claims and their marks. */
  method Admit(c: seq<Claim>, existing: seq<bool>, limit: int, ghost held: set<Slot>) returns (admitted: nat, refused: seq<Claim>)
    requires |existing| == |c|
    ensures forall x | x in refused :: x in c
    ensures (forall i | 0 <= i < |c| :: existing[i] <==> SlotOf(c[i]) in held) ==>
              admitted == |Admitted(c, held, limit)| && refused == RefusedClaims(c, held, limit)
  {
    admitted, refused := 0, [];
    for i := 0 to |c|
      invariant forall x | x in refused :: x in c
      invariant (forall i | 0 <= i < |c| :: existing[i] <==> SlotOf(c[i]) in held) ==>
                  admitted == |Admitted(c[..i], held, limit)| && refused == RefusedClaims(c[..i], held, limit)
    {
      assert c[..i + 1][..i] == c[..i];
      if existing[i] {
        admitted := admitted + 1;
        continue;
      }
      if admitted < limit {
        admitted := admitted + 1;
        continue;
      }
      refused := refused + [c[i]];
    }
    assert c[..|c|] == c;
  }

  // Distinct claims, as a list.
  predicate NoRepeats(c: seq<Claim>) {
    forall i, j | 0 <= i < j < |c| :: c[i] != c[j]
  }

  function Max(a: int, b: int): int {
    if a < b then b else a
  }

  // How many of the claims are already published.
  function HeldCount(c: seq<Claim>, held: set<Slot>): nat {
    if c == [] then 0 else HeldCount(c[..|c| - 1], held) + if SlotOf(c[|c| - 1]) in held then 1 else 0
  }

  lemma {:induction false} AdmittedCount(c: seq<Claim>, held: set<Slot>, limit: nat)
    ensures |Admitted(c, held, limit)|
            == if |c| <= limit then |c| else limit + HeldCount(c[limit..], held)
  {
    if c != [] {
      var n := |c| - 1;
      AdmittedCount(c[..n], held, limit);
      if n > limit {
        assert c[limit..][..n - limit] == c[..n][limit..];
      } else if n == limit {
        assert c[limit..] == [c[n]] && c[limit..][..0] == [];
        assert HeldCount(c[limit..], held) == HeldCount([], held) + if SlotOf(c[n]) in held then 1 else 0;
      }
    }
  }

  lemma LastIsNew(c: seq<Claim>, held: set<Slot>, limit: int)
    requires NoRepeats(c) && c != []
    ensures c[|c| - 1] !in Admitted(c[..|c| - 1], held, limit)
  {
    OnlyListed(c[..|c| - 1], held, limit);
    assert forall k | 0 <= k < |c| - 1 :: c[k] != c[|c| - 1];
  }

  // The counter is below the limit exactly at the first `limit` claims.
  lemma RoomExactly(c: seq<Claim>, held: set<Slot>, limit: int)
    ensures |Admitted(c, held, limit)| < limit <==> |c| < limit
  {
    if limit >= 0 { AdmittedCount(c, held, limit); }
  }

  /** The counter in closed form: a claim is admitted if and only if it is already published, or is
      among the first `limit` of all claims in order. */
  lemma {:induction false} AdmittedExactly(c: seq<Claim>, held: set<Slot>, limit: int, i: nat)
    requires NoRepeats(c) && i < |c|
    ensures c[i] in Admitted(c, held, limit) <==> i < limit || SlotOf(c[i]) in held
  {
    var n := |c| - 1;
    RoomExactly(c[..n], held, limit);
    if i < n {
      AdmittedExactly(c[..n], held, limit, i);
      assert c[i] != c[n];
    } else {
      LastIsNew(c, held, limit);
    }
  }

  lemma {:induction false} OnlyListed(c: seq<Claim>, held: set<Slot>, limit: int)
    ensures forall x | x in Admitted(c, held, limit) :: x in c
    ensures forall x | x in RefusedClaims(c, held, limit) :: x in c && SlotOf(x) !in held
    ensures forall x | x in c :: x in Admitted(c, held, limit) || x in RefusedClaims(c, held, limit)
    ensures |Admitted(c, held, limit)| + |RefusedClaims(c, held, limit)| == |c|
  {
    if c != [] {
      OnlyListed(c[..|c| - 1], held, limit);
      assert c == c[..|c| - 1] + [c[|c| - 1]];
    }
  }

  // Each claim goes to one of the two lists.
  lemma OneMore(c: seq<Claim>, held: set<Slot>, limit: int)
    requires c != []
    ensures var n := |c| - 1; var ok := SlotOf(c[n]) in held || |Admitted(c[..n], held, limit)| < limit;
            && Admitted(c, held, limit) == Admitted(c[..n], held, limit) + (if ok then [c[n]] else [])
            && RefusedClaims(c, held, limit) == RefusedClaims(c[..n], held, limit) + (if ok then [] else [c[n]])
  {
  }

  lemma {:induction false} RefusedExactly(c: seq<Claim>, held: set<Slot>, limit: int, x: Claim)
    requires NoRepeats(c) && x in c
    ensures x in RefusedClaims(c, held, limit) <==> x !in Admitted(c, held, limit)
  {
    hide Admitted, RefusedClaims;
    var n := |c| - 1;
    OneMore(c, held, limit);
    if x == c[n] {
      assert forall k | 0 <= k < n :: c[k] != c[n];
      OnlyListed(c[..n], held, limit);
    } else {
      assert c == c[..n] + [c[n]];
      RefusedExactly(c[..n], held, limit, x);
    }
  }

  lemma {:induction false} RefusedDistinct(c: seq<Claim>, held: set<Slot>, limit: int)
    requires DistinctSlots(c)
    ensures DistinctSlots(RefusedClaims(c, held, limit))
  {
    if c != [] {
      var n := |c| - 1;
      RefusedDistinct(c[..n], held, limit);
      OnlyListed(c[..n], held, limit);
      OneMore(c, held, limit);
      DistinctMore(c, RefusedClaims(c[..n], held, limit));
    }
  }

  lemma DistinctMore(c: seq<Claim>, before: seq<Claim>)
    requires c != [] && DistinctSlots(c) && DistinctSlots(before) && forall x | x in before :: x in c[..|c| - 1]
    ensures DistinctSlots(before + [c[|c| - 1]])
  {
    forall k | 0 <= k < |before| ensures SlotOf(before[k]) != SlotOf(c[|c| - 1]) {
      assert before[k] in before;
      var i :| 0 <= i < |c| - 1 && c[i] == before[k];
    }
  }

  /** A new claim is admitted if and only if fewer than `limit` admitted claims sort before it. */
  lemma NewAdmittedExactly(c: seq<Claim>, held: set<Slot>, limit: int, i: nat)
    requires NoRepeats(c) && i < |c| && SlotOf(c[i]) !in held
    ensures c[i] in Admitted(c, held, limit) <==> |Admitted(c[..i], held, limit)| < limit
  {
    AdmittedExactly(c, held, limit, i);
    if limit >= 0 { AdmittedCount(c[..i], held, limit); }
  }

  lemma {:induction false} HeldSplit(c: seq<Claim>, held: set<Slot>, k: nat)
    requires k <= |c|
    ensures HeldCount(c, held) == HeldCount(c[..k], held) + HeldCount(c[k..], held)
  {
    if k == |c| {
      assert c[..k] == c && c[k..] == [];
    } else {
      var n := |c| - 1;
      HeldSplit(c[..n], held, k);
      assert c[..n][..k] == c[..k] && c[..n][k..] == c[k..][..n - k];
    }
  }

  lemma {:induction false} HeldFew(c: seq<Claim>, held: set<Slot>)
    ensures HeldCount(c, held) <= |c|
    ensures HeldCount(c, held) == |c| <==> forall x | x in c :: SlotOf(x) in held
    ensures HeldCount(c, held) == 0 <==> forall x | x in c :: SlotOf(x) !in held
  {
    if c != [] {
      HeldFew(c[..|c| - 1], held);
      assert c == c[..|c| - 1] + [c[|c| - 1]];
    }
  }

  /** The limit, exactly: the count stays within the larger of the limit and what was published before,
      unless a new claim sorts among the first `limit` while a published one sorts after them. */
  lemma OvershootExactly(c: seq<Claim>, held: set<Slot>, limit: nat)
    requires limit <= |c|
    ensures |Admitted(c, held, limit)| <= Max(limit, HeldCount(c, held)) <==>
              (forall x | x in c[..limit] :: SlotOf(x) in held) || (forall x | x in c[limit..] :: SlotOf(x) !in held)
  {
    AdmittedCount(c, held, limit);
    HeldSplit(c, held, limit);
    HeldFew(c[..limit], held);
    HeldFew(c[limit..], held);
    if |c| == limit { assert c[limit..] == []; }
  }

  /* ----- Lowering the limit ----- */

  /** A published endpoint is refused if and only if it sorts beyond the limit and is not among those
      found published: because its read failed. */
  lemma PublishedRefusedExactly(c: seq<Claim>, published: set<Slot>, held: set<Slot>, limit: int, i: nat)
    requires NoRepeats(c) && held <= published && i < |c| && SlotOf(c[i]) in published
    ensures c[i] in RefusedClaims(c, held, limit) <==> i >= limit && SlotOf(c[i]) in published - held
  {
    AdmittedExactly(c, held, limit, i);
    RefusedExactly(c, held, limit, c[i]);
  }

  /** Lowering the limit tears nothing down if and only if every published endpoint that the limit no
      longer covers is found published. */
  lemma LoweringExactly(c: seq<Claim>, published: set<Slot>, held: set<Slot>, limit: nat)
    requires NoRepeats(c) && held <= published && limit <= |c|
    ensures (forall x | x in RefusedClaims(c, held, limit) :: SlotOf(x) !in published)
            <==> (forall x | x in c[limit..] && SlotOf(x) in published :: SlotOf(x) in held)
  {
    OnlyListed(c, held, limit);
    forall i | 0 <= i < |c| && SlotOf(c[i]) in published
      ensures c[i] in RefusedClaims(c, held, limit) <==> i >= limit && SlotOf(c[i]) !in held
    {
      PublishedRefusedExactly(c, published, held, limit, i);
    }
    forall x | x in c[limit..] ensures exists i | limit <= i < |c| :: c[i] == x {
      var k :| 0 <= k < |c| - limit && c[limit..][k] == x;
      assert c[limit + k] == x;
    }
    forall i | limit <= i < |c| ensures c[i] in c[limit..] { assert c[limit..][i - limit] == c[i]; }
  }

  /** Two published endpoints, a limit lowered to one, and a read that fails: one is refused. */
  lemma FailedReadRefuses() returns (c: seq<Claim>, published: set<Slot>, held: set<Slot>)
    ensures |c| == 2 && Sorted(c, Before) && NoRepeats(c) && held <= published == SlotsOf(c)
    ensures RefusedClaims(c, published, 1) == [] && RefusedClaims(c, held, 1) == [c[1]]
  {
    var a := Claim(ObjRef(ServiceKind, "ns", "a"), Short("t-ns-a"), 1, "uid-a");
    var b := Claim(ObjRef(ServiceKind, "ns", "b"), Short("t-ns-b"), 2, "uid-b");
    c, published, held := [a, b], {SlotOf(a), SlotOf(b)}, {SlotOf(a)};
    assert "t-ns-a"[5] != "t-ns-b"[5];
    assert SlotOf(a) in SlotsOf(c) && SlotOf(b) in SlotsOf(c);
    assert c[..1] == [a] && [a][..0] == [];
    assert Admitted([a], held, 1) == Admitted([], held, 1) + [a];
    assert RefusedClaims([a], held, 1) == RefusedClaims([], held, 1);
    assert RefusedClaims([a], published, 1) == RefusedClaims([], published, 1);
  }

  // With more room than claims everything is admitted.
  lemma RoomForAll(c: seq<Claim>, held: set<Slot>, limit: nat)
    requires |c| <= limit
    ensures |Admitted(c, held, limit)| == |c| <= Max(limit, HeldCount(c, held))
  {
    AdmittedCount(c, held, limit);
  }

  /** A limit of one, an unpublished claim, and a younger one that is published: two are admitted. */
  lemma OvershootExists() returns (c: seq<Claim>, held: set<Slot>)
    ensures Sorted(c, Before) && NoRepeats(c) && HeldCount(c, held) == 1
    ensures |Admitted(c, held, 1)| == 2
  {
    var a := Claim(ObjRef(ServiceKind, "ns", "a"), Short("t-ns-a"), 1, "uid-a");
    var b := Claim(ObjRef(ServiceKind, "ns", "b"), Short("t-ns-b"), 2, "uid-b");
    c, held := [a, b], {SlotOf(b)};
    assert c[..1] == [a] && c[..1][..0] == [] && c[1..] == [b] && [b][..0] == [];
    assert "t-ns-a"[5] != "t-ns-b"[5];
    assert HeldCount(c[..1], held) == HeldCount([], held) + 0;
    AdmittedCount(c, held, 1);
    assert HeldCount([b], held) == HeldCount([], held) + 1;
  }

  function SlotsOf(c: seq<Claim>): set<Slot> {
    set x | x in c :: SlotOf(x)
  }

  predicate DistinctSlots(c: seq<Claim>) {
    forall i, j | 0 <= i < j < |c| :: SlotOf(c[i]) != SlotOf(c[j])
  }

  lemma SlotExactly(c: seq<Claim>, adm: seq<Claim>, x: Claim)
    requires DistinctSlots(c) && x in c && (forall y | y in adm :: y in c)
    ensures SlotOf(x) in SlotsOf(adm) <==> x in adm
  {
    if SlotOf(x) in SlotsOf(adm) {
      var y :| y in adm && SlotOf(y) == SlotOf(x);
      var i :| 0 <= i < |c| && c[i] == x;
      var j :| 0 <= j < |c| && c[j] == y;
    }
  }

  /** Stability: once the host holds what was admitted, another pass admits the same, whatever was
      published before the first. No endpoint flaps. */
  lemma AdmittedStable(c: seq<Claim>, held: set<Slot>, limit: int)
    requires DistinctSlots(c)
    ensures Admitted(c, SlotsOf(Admitted(c, held, limit)), limit) == Admitted(c, held, limit)
  {
    var adm := Admitted(c, held, limit);
    OnlyListed(c, held, limit);
    forall i | 0 <= i < |c| ensures SlotOf(c[i]) in SlotsOf(adm) <==> i < limit || SlotOf(c[i]) in held {
      SlotExactly(c, adm, c[i]);
      AdmittedExactly(c, held, limit, i);
    }
    SameVerdicts(c, held, SlotsOf(adm), limit);
  }

  lemma {:induction false} SameVerdicts(c: seq<Claim>, held: set<Slot>, held': set<Slot>, limit: int)
    requires forall i | 0 <= i < |c| :: SlotOf(c[i]) in held' <==> i < limit || SlotOf(c[i]) in held
    ensures Admitted(c, held', limit) == Admitted(c, held, limit)
  {
    if c != [] {
      var n := |c| - 1;
      SameVerdicts(c[..n], held, held', limit);
      RoomExactly(c[..n], held, limit);
    }
  }

  /** Determinism: the claims can be gathered in any order. */
  lemma AdmissionForgetsOrder(a: seq<Claim>, b: seq<Claim>, held: set<Slot>, limit: int)
    requires UniqueIds(set x | x in a) && multiset(a) == multiset(b)
    ensures Admitted(Sort(a, Before), held, limit) == Admitted(Sort(b, Before), held, limit)
  {
    BeforeOrders(set x | x in a);
    SortForgetsOrder(a, b, Before, set x | x in a);
  }

  /** The order of the claims in plain terms: whatever the order they were gathered in, the sorted
      list holds the same claims, the oldest first, and those made at the same time by UID. */
  lemma SortedByAge(gathered: seq<Claim>, i: nat, j: nat)
    requires UniqueIds(set x | x in gathered) && NoRepeats(gathered)
    requires i < j < |gathered|
    ensures multiset(Sort(gathered, Before)) == multiset(gathered) && |Sort(gathered, Before)| == |gathered|
    ensures var c := Sort(gathered, Before);
            c[i].created < c[j].created || (c[i].created == c[j].created && LexLess(c[i].uid, c[j].uid))
  {
    var c, dom := Sort(gathered, Before), set x | x in gathered;
    assert |multiset(c)| == |multiset(gathered)|;
    BeforeOrders(dom);
    SortSorts(gathered, Before, dom);
    OnlyOnce(gathered, c, i, j);
    assert c[i] in dom && c[j] in dom;
  }

  /** Seniority: of two claims that hold no address yet, the younger gets one only if the older does. */
  lemma SeniorFirst(gathered: seq<Claim>, held: set<Slot>, limit: int, a: Claim, b: Claim)
    requires UniqueIds(set x | x in gathered) && NoRepeats(gathered)
    requires a in gathered && b in gathered && SlotOf(a) !in held && SlotOf(b) !in held
    requires a.created < b.created || (a.created == b.created && LexLess(a.uid, b.uid))
    ensures b in Admitted(Sort(gathered, Before), held, limit) ==> a in Admitted(Sort(gathered, Before), held, limit)
  {
    var c := Sort(gathered, Before);
    assert |multiset(c)| == |multiset(gathered)|;
    forall i, j | 0 <= i < j < |c| ensures c[i] != c[j] { OnlyOnce(gathered, c, i, j); }
    assert a in multiset(c) && b in multiset(c);
    var i :| 0 <= i < |c| && c[i] == a;
    var j :| 0 <= j < |c| && c[j] == b;
    LexIrreflexive(a.uid);
    if j < i {
      SortedByAge(gathered, j, i);
      BeforeAsymmetric(a, b);
    }
    AdmittedExactly(c, held, limit, i);
    AdmittedExactly(c, held, limit, j);
  }

  // Different objects, with different names on the host.
  ghost predicate Distinct(c: seq<Claim>) {
    forall i, j | 0 <= i < j < |c| :: c[i].uid != c[j].uid && SlotOf(c[i]) != SlotOf(c[j])
  }

  lemma MembersDistinct(c: seq<Claim>)
    requires Distinct(c)
    ensures UniqueIds(set x | x in c)
    ensures forall a, b | a in c && b in c :: a == b || SlotOf(a) != SlotOf(b)
  {
    forall a, b | a in c && b in c ensures a == b || (a.uid != b.uid && SlotOf(a) != SlotOf(b)) {
      var i :| 0 <= i < |c| && c[i] == a;
      var j :| 0 <= j < |c| && c[j] == b;
    }
  }

  // Distinct claims gathered in some order, and sorted.
  lemma Gathered(claims: seq<Claim>, gathered: seq<Claim>) returns (c: seq<Claim>)
    requires Distinct(claims) && multiset(gathered) == multiset(claims)
    ensures c == Sort(gathered, Before) && multiset(c) == multiset(claims)
    ensures NoRepeats(c) && DistinctSlots(c)
    ensures forall x :: x in c <==> x in claims
    ensures forall i, j | 0 <= i < j < |c| :: Before(c[i], c[j])
  {
    c := Sort(gathered, Before);
    MembersDistinct(claims);
    var dom := set x | x in claims;
    BeforeOrders(dom);
    forall x ensures x in c <==> x in claims { assert x in c <==> x in multiset(c); }
    forall x | x in gathered ensures x in dom { assert x in multiset(gathered); }
    SortSorts(gathered, Before, dom);
    forall i, j | 0 <= i < j < |c| ensures c[i] != c[j] && SlotOf(c[i]) != SlotOf(c[j]) && Before(c[i], c[j]) {
      OnlyOnce(claims, c, i, j);
      assert c[i] in dom && c[j] in dom;
    }
  }

  lemma OnlyOnce(s: seq<Claim>, c: seq<Claim>, i: nat, j: nat)
    requires NoRepeats(s) && multiset(c) == multiset(s) && i < j < |c|
    ensures c[i] != c[j]
  {
    TwiceThere(c, i, j);
    AtMostOnce(s, c[i]);
  }

  lemma {:induction false} AtMostOnce(s: seq<Claim>, x: Claim)
    requires NoRepeats(s)
    ensures multiset(s)[x] <= 1
  {
    if s != [] {
      var n := |s| - 1;
      AtMostOnce(s[..n], x);
      assert s == s[..n] + [s[n]];
      if x == s[n] { assert x !in s[..n]; }
    }
  }

  /* ----- Over many passes ----- */

  // The guest's claims in whatever order, and the host names published for them.
  datatype Endpoints = Endpoints(claims: seq<Claim>, published: set<Slot>, limit: int)

  datatype Event =
    | Create(claim: Claim) | Delete(i: nat) | SetLimit(limit: int)
    // a pass, in which host calls succeed; the claims come in some order
    | Pass(gathered: seq<Claim>)

  // The finalizer keeps a deleted object's name taken until its host object is gone.
  ghost predicate Possible(s: Endpoints, e: Event) {
    match e
    case Create(c) =>
      && SlotOf(c) !in s.published
      && (forall x | x in s.claims :: x.uid != c.uid && SlotOf(x) != SlotOf(c))
      // no claim is older than the published ones; of two made at once, the UID decides
      && (forall x | x in s.claims && SlotOf(x) in s.published ::
            x.created < c.created || (x.created == c.created && LexLess(x.uid, c.uid)))
    case Delete(i) => i < |s.claims|
    case SetLimit(_) => true
    case Pass(gathered) => multiset(gathered) == multiset(s.claims)
  }

  function Next(s: Endpoints, e: Event): Endpoints
    requires Possible(s, e)
  {
    match e
    case Create(c) => s.(claims := s.claims + [c])
    case Delete(i) => s.(claims := s.claims[..i] + s.claims[i + 1..])
    case SetLimit(limit) => s.(limit := limit)
    case Pass(gathered) => s.(published := SlotsOf(Admitted(Sort(gathered, Before), s.published, s.limit)))
  }

  // What is published comes first in the order of claims.
  ghost predicate InitialSegment(s: Endpoints) {
    forall a, b | a in s.claims && b in s.claims && SlotOf(a) in s.published && SlotOf(b) !in s.published :: Before(a, b)
  }

  ghost predicate Orderly(s: Endpoints) {
    Distinct(s.claims) && InitialSegment(s)
  }

  ghost predicate History(events: seq<Event>, states: seq<Endpoints>) {
    && |states| == |events| + 1
    && states[0].claims == [] && states[0].published == {}
    && forall i | 0 <= i < |events| :: Possible(states[i], events[i]) && states[i + 1] == Next(states[i], events[i])
  }

  // In a sorted list with a published initial segment, the published claims are the first ones.
  lemma PassAdmitsPrefix(s: Endpoints, c: seq<Claim>)
    requires Orderly(s) && NoRepeats(c) && DistinctSlots(c) && (forall x :: x in c <==> x in s.claims)
    requires forall i, j | 0 <= i < j < |c| :: Before(c[i], c[j])
    ensures forall i, j | 0 <= i < j < |c| && c[j] in Admitted(c, s.published, s.limit) :: c[i] in Admitted(c, s.published, s.limit)
  {
    forall i, j | 0 <= i < j < |c| && c[j] in Admitted(c, s.published, s.limit)
      ensures c[i] in Admitted(c, s.published, s.limit)
    {
      AdmittedExactly(c, s.published, s.limit, i);
      AdmittedExactly(c, s.published, s.limit, j);
      if SlotOf(c[i]) !in s.published && SlotOf(c[j]) in s.published {
        assert Before(c[i], c[j]) && Before(c[j], c[i]);
        LexIrreflexive(c[i].uid);
        BeforeAsymmetric(c[i], c[j]);
      }
    }
  }

  lemma BeforeAsymmetric(a: Claim, b: Claim)
    requires Before(a, b)
    ensures !Before(b, a)
  {
    if a.created == b.created && LexLess(b.uid, a.uid) {
      LexTransitive(a.uid, b.uid, a.uid);
      LexIrreflexive(a.uid);
    }
  }

  // A published and an unpublished claim after a pass.
  lemma PairInOrder(c: seq<Claim>, adm: seq<Claim>, a: Claim, b: Claim)
    requires DistinctSlots(c) && (forall x | x in adm :: x in c)
    requires forall i, j | 0 <= i < j < |c| :: Before(c[i], c[j])
    requires forall i, j | 0 <= i < j < |c| && c[j] in adm :: c[i] in adm
    requires a in c && b in c && SlotOf(a) in SlotsOf(adm) && SlotOf(b) !in SlotsOf(adm)
    ensures Before(a, b)
  {
    SlotExactly(c, adm, a);
    SlotExactly(c, adm, b);
    var i :| 0 <= i < |c| && c[i] == a;
    var j :| 0 <= j < |c| && c[j] == b;
  }

  lemma PassKeepsOrder(s: Endpoints, gathered: seq<Claim>)
    requires Orderly(s) && Possible(s, Pass(gathered))
    ensures Orderly(Next(s, Pass(gathered)))
  {
    hide Admitted, RefusedClaims, Sort, NoRepeats, DistinctSlots, SlotsOf, Before;
    var c := Gathered(s.claims, gathered);
    PassAdmitsPrefix(s, c);
    var s' := Next(s, Pass(gathered));
    var adm := Admitted(c, s.published, s.limit);
    OnlyListed(c, s.published, s.limit);
    forall a, b | a in s'.claims && b in s'.claims && SlotOf(a) in s'.published && SlotOf(b) !in s'.published
      ensures Before(a, b)
    {
      PairInOrder(c, adm, a, b);
    }
  }

  lemma EventKeepsOrder(s: Endpoints, e: Event)
    requires Orderly(s) && Possible(s, e)
    ensures Orderly(Next(s, e))
  {
    match e {
      case Create(c) =>
        var s' := Next(s, e);
        assert forall x | x in s'.claims :: x == c || x in s.claims;
      case Delete(i) =>
        var s' := Next(s, e);
        assert forall x | x in s'.claims :: x in s.claims;
      case SetLimit(_) =>
        assert InitialSegment(Next(s, e));
      case Pass(gathered) => PassKeepsOrder(s, gathered);
    }
  }

  /** If new claims sort after published ones, then in every history of creations, deletions, changes
      of the limit, and passes, the published endpoints are the first of the claims in order. */
  lemma {:induction false} PublishedComeFirst(events: seq<Event>, states: seq<Endpoints>, i: nat)
    requires History(events, states) && i < |states|
    ensures Orderly(states[i])
    decreases i
  {
    if i > 0 {
      PublishedComeFirst(events, states, i - 1);
      EventKeepsOrder(states[i - 1], events[i - 1]);
    }
  }

  /** In plain terms: no published endpoint is younger than an unpublished one, and of two made at
      once the UID has decided. */
  lemma PublishedAreSenior(events: seq<Event>, states: seq<Endpoints>, i: nat, a: Claim, b: Claim)
    requires History(events, states) && i < |states|
    requires a in states[i].claims && b in states[i].claims
    requires SlotOf(a) in states[i].published && SlotOf(b) !in states[i].published
    ensures a.created < b.created || (a.created == b.created && LexLess(a.uid, b.uid))
  {
    PublishedComeFirst(events, states, i);
  }

  // The number of published endpoints that are still claimed.
  function Live(s: Endpoints): nat {
    HeldCount(s.claims, s.published)
  }

  lemma HeldCountRemove(c: seq<Claim>, held: set<Slot>, k: nat)
    requires k < |c|
    ensures HeldCount(c, held) == HeldCount(c[..k] + c[k + 1..], held) + if SlotOf(c[k]) in held then 1 else 0
  {
    var rest := c[..k] + c[k + 1..];
    HeldSplit(c, held, k);
    HeldSplit(c[k..], held, 1);
    HeldSplit(rest, held, k);
    assert c[k..][..1] == [c[k]] && c[k..][1..] == c[k + 1..] && rest[..k] == c[..k] && rest[k..] == c[k + 1..];
    assert [c[k]][..0] == [];
    assert HeldCount([c[k]], held) == HeldCount([], held) + if SlotOf(c[k]) in held then 1 else 0;
  }

  lemma WithoutOne(a: seq<Claim>, b: seq<Claim>, k: nat)
    requires a != [] && multiset(a) == multiset(b) && k < |b| && b[k] == a[|a| - 1]
    ensures multiset(a[..|a| - 1]) == multiset(b[..k] + b[k + 1..])
  {
    assert a == a[..|a| - 1] + [b[k]];
    assert b == b[..k] + [b[k]] + b[k + 1..];
    assert multiset(a[..|a| - 1]) == multiset(a) - multiset{b[k]};
    assert multiset(b[..k] + b[k + 1..]) == multiset(b) - multiset{b[k]};
  }

  lemma {:induction false} HeldCountForgetsOrder(a: seq<Claim>, b: seq<Claim>, held: set<Slot>)
    requires multiset(a) == multiset(b)
    ensures HeldCount(a, held) == HeldCount(b, held)
    decreases |a|
  {
    assert |multiset(a)| == |a| && |multiset(b)| == |b|;
    if a != [] {
      var n := |a| - 1;
      assert a[n] in multiset(b);
      var k :| 0 <= k < |b| && b[k] == a[n];
      WithoutOne(a, b, k);
      HeldCountForgetsOrder(a[..n], b[..k] + b[k + 1..], held);
      HeldCountRemove(b, held, k);
    }
  }

  /** And no pass raises the number of endpoints above the larger of the limit and what it found. */
  lemma PassWithinLimit(events: seq<Event>, states: seq<Endpoints>, i: nat)
    requires History(events, states) && i < |events| && events[i].Pass?
    ensures Live(states[i + 1]) <= Max(states[i].limit, Live(states[i]))
  {
    PublishedComeFirst(events, states, i);
    var s, s' := states[i], states[i + 1];
    var c := Gathered(s.claims, events[i].gathered);
    PassAdmitsPrefix(s, c);
    LiveIsAdmitted(s, s', c);
    HeldCountForgetsOrder(s.claims, c, s.published);
    var limit := Max(s.limit, 0);
    NegativeIsZero(c, s.published, s.limit);
    if limit < |c| {
      PrefixOrNothing(s, c, limit);
      OvershootExactly(c, s.published, limit);
    } else {
      RoomForAll(c, s.published, limit);
      HeldFew(c, s.published);
    }
  }

  lemma PrefixOrNothing(s: Endpoints, c: seq<Claim>, limit: nat)
    requires Orderly(s) && (forall x :: x in c <==> x in s.claims) && limit <= |c|
    requires forall i, j | 0 <= i < j < |c| :: Before(c[i], c[j])
    ensures (forall x | x in c[..limit] :: SlotOf(x) in s.published) || (forall x | x in c[limit..] :: SlotOf(x) !in s.published)
  {
    if x, y :| x in c[..limit] && SlotOf(x) !in s.published && y in c[limit..] && SlotOf(y) in s.published {
      var i :| 0 <= i < limit && c[i] == x;
      var j :| limit <= j < |c| && c[j] == y;
      assert Before(y, x);
      BeforeAsymmetric(x, y);
    }
  }

  lemma {:induction false} NegativeIsZero(c: seq<Claim>, held: set<Slot>, limit: int)
    ensures Admitted(c, held, limit) == Admitted(c, held, Max(limit, 0))
  {
    if c != [] { NegativeIsZero(c[..|c| - 1], held, limit); }
  }

  lemma {:induction false} CountAdmitted(c: seq<Claim>, held: set<Slot>, limit: int, names: set<Slot>, k: nat)
    requires NoRepeats(c) && k <= |c|
    requires forall i | 0 <= i < k :: SlotOf(c[i]) in names <==> i < limit || SlotOf(c[i]) in held
    ensures HeldCount(c[..k], names) == |Admitted(c[..k], held, limit)|
    decreases k
  {
    if k > 0 {
      CountAdmitted(c, held, limit, names, k - 1);
      assert c[..k][..k - 1] == c[..k - 1];
      if limit >= 0 { AdmittedCount(c[..k - 1], held, limit); }
    }
  }

  lemma LiveIsAdmitted(s: Endpoints, s': Endpoints, c: seq<Claim>)
    requires NoRepeats(c) && DistinctSlots(c) && multiset(c) == multiset(s.claims)
    requires s' == s.(published := SlotsOf(Admitted(c, s.published, s.limit)))
    ensures Live(s') == |Admitted(c, s.published, s.limit)|
  {
    var adm := Admitted(c, s.published, s.limit);
    HeldCountForgetsOrder(s.claims, c, s'.published);
    OnlyListed(c, s.published, s.limit);
    forall i | 0 <= i < |c| ensures SlotOf(c[i]) in s'.published <==> i < s.limit || SlotOf(c[i]) in s.published {
      AdmittedExactly(c, s.published, s.limit, i);
      SlotExactly(c, adm, c[i]);
    }
    CountAdmitted(c, s.published, s.limit, s'.published, |c|);
    assert c[..|c|] == c;
  }
}
