/** Names on the host, internal/syncer/ownership.go and internal/syncer/storage.go: what they are
    made of, and when two guest objects get the same one. */
module Names {
  import opened Text

  const MAX_LABEL := 63

  // validation.DNS1035LabelMaxLength bounds the text; a longer one keeps a prefix and a digest of the
  // whole. The digest is taken to tell all texts apart.
  datatype HostName = Short(text: string) | Long(prefix: string, digestOf: string)

  function SafeChar(c: char): char {
    if 'a' <= c <= 'z' || '0' <= c <= '9' || c == '-' then c else '-'
  }

  function Safe(s: string): (r: string)
    ensures |r| == |s| && forall i | 0 <= i < |s| :: r[i] == SafeChar(LowerChar(s[i]))
  {
    seq(|s|, i requires 0 <= i < |s| => SafeChar(LowerChar(s[i])))
  }

  // strings.Trim with a cutset of one dash
  function TrimDashes(s: string): string {
    if s != "" && s[0] == '-' then TrimDashes(s[1..])
    else if s != "" && s[|s| - 1] == '-' then TrimDashes(s[..|s| - 1])
    else s
  }

  function SanitizeName(s: string): string {
    TrimDashes(Safe(s))
  }

  /** sanitizeName, as it is written: character by character into a buffer. */
  method Sanitize(s: string) returns (name: string)
    ensures name == SanitizeName(s)
  {
    var lower := ToLower(s);
    var b := "";
    for i := 0 to |lower|
      invariant b == Safe(s)[..i]
    {
      var c := lower[i];
      b := b + if 'a' <= c <= 'z' || '0' <= c <= '9' || c == '-' then [c] else ['-'];
    }
    assert Safe(s)[..|s|] == Safe(s);
    name := TrimDashes(b);
  }

  function HostObjectName(tenant: string, ns: string, name: string): HostName {
    var base := SanitizeName(tenant + "-" + ns + "-" + name);
    if |base| <= MAX_LABEL then Short(base) else Long(base[..MAX_LABEL - 11], base)
  }

  function HostPVCName(tenant: string, uid: string): string {
    SanitizeName(tenant + "-pvc-" + uid)
  }

  /* ----- Names the Kubernetes API accepts as labels ----- */

  predicate LabelChar(c: char) {
    'a' <= c <= 'z' || '0' <= c <= '9' || c == '-'
  }

  predicate IsLabel(s: string) {
    s != "" && s[0] != '-' && s[|s| - 1] != '-' && forall i | 0 <= i < |s| :: LabelChar(s[i])
  }

  lemma LabelIsSafe(s: string)
    requires IsLabel(s)
    ensures Safe(s) == s
  {
    forall i | 0 <= i < |s| ensures Safe(s)[i] == s[i] { assert LabelChar(s[i]); }
  }

  /** What is already a label is its own host name. */
  lemma LabelUnchanged(s: string)
    requires IsLabel(s)
    ensures SanitizeName(s) == s
  {
    LabelIsSafe(s);
  }

  /** Sanitised names are made of label characters and neither start nor end with a dash. */
  lemma {:induction false} TrimmedIsLabel(s: string)
    requires forall i | 0 <= i < |s| :: LabelChar(s[i])
    ensures TrimDashes(s) == "" || IsLabel(TrimDashes(s))
    decreases |s|
  {
    if s != "" && s[0] == '-' {
      TrimmedIsLabel(s[1..]);
    } else if s != "" && s[|s| - 1] == '-' {
      TrimmedIsLabel(s[..|s| - 1]);
    }
  }

  lemma SanitizedIsLabel(s: string)
    ensures SanitizeName(s) == "" || IsLabel(SanitizeName(s))
  {
    TrimmedIsLabel(Safe(s));
  }

  lemma JoinedIsLabel(a: string, b: string)
    requires IsLabel(a) && IsLabel(b)
    ensures IsLabel(a + "-" + b)
  {
    var s := a + "-" + b;
    forall i | 0 <= i < |s| ensures LabelChar(s[i]) {
      if i > |a| { assert s[i] == b[i - |a| - 1]; }
    }
  }

  /** Host names are equal exactly when namespace and name run together to the same text. */
  lemma SameHostName(t: string, ns: string, name: string, ns': string, name': string)
    requires IsLabel(t) && IsLabel(ns) && IsLabel(name) && IsLabel(ns') && IsLabel(name')
    ensures HostObjectName(t, ns, name) == HostObjectName(t, ns', name') <==> ns + "-" + name == ns' + "-" + name'
  {
    WholeName(t, ns, name);
    WholeName(t, ns', name');
    var a, b := ns + "-" + name, ns' + "-" + name';
    if t + "-" + a == t + "-" + b {
      assert a == (t + "-" + a)[|t| + 1..] && b == (t + "-" + b)[|t| + 1..];
    }
  }

  lemma WholeName(t: string, ns: string, name: string)
    requires IsLabel(t) && IsLabel(ns) && IsLabel(name)
    ensures SanitizeName(t + "-" + ns + "-" + name) == t + "-" + (ns + "-" + name)
  {
    JoinedIsLabel(ns, name);
    JoinedIsLabel(t, ns + "-" + name);
    LabelUnchanged(t + "-" + (ns + "-" + name));
    assert t + "-" + ns + "-" + name == t + "-" + (ns + "-" + name);
  }

  // One namespace continues the other by a dash and a piece that the other's name starts with.
  ghost predicate Straddles(ns: string, name: string, ns': string, name': string) {
    exists k :: ns' == ns + "-" + k && name == k + "-" + name'
  }

  lemma StraddlesFrom(ns: string, name: string, ns': string, name': string)
    requires ns + "-" + name == ns' + "-" + name' && |ns| < |ns'|
    ensures Straddles(ns, name, ns', name')
  {
    var s := ns + "-" + name;
    assert s == ns' + "-" + name';
    var k := ns'[|ns| + 1..];
    assert ns' == s[..|ns'|] && s[..|ns|] == ns && s[|ns|] == '-';
    assert ns' == ns + "-" + k;
    assert name == s[|ns| + 1..];
    assert name == k + "-" + name';
  }

  lemma StraddlesTo(ns: string, name: string, ns': string, name': string)
    requires Straddles(ns, name, ns', name')
    ensures ns + "-" + name == ns' + "-" + name'
  {
    var k :| ns' == ns + "-" + k && name == k + "-" + name';
    assert ns + "-" + name == ns + "-" + k + "-" + name';
  }

  lemma SameLength(ns: string, name: string, ns': string, name': string)
    requires ns + "-" + name == ns' + "-" + name'
    ensures |ns| == |ns'| ==> ns == ns' && name == name'
  {
    var a, b := ns + "-" + name, ns' + "-" + name';
    assert ns == a[..|ns|] && ns' == b[..|ns'|] && name == a[|ns| + 1..] && name' == b[|ns'| + 1..];
  }

  lemma LabelCollision(t: string, ns: string, name: string, ns': string, name': string)
    requires IsLabel(t) && IsLabel(ns) && IsLabel(name) && IsLabel(ns') && IsLabel(name')
    ensures HostObjectName(t, ns, name) == HostObjectName(t, ns', name') <==>
              (ns == ns' && name == name') || Straddles(ns, name, ns', name') || Straddles(ns', name', ns, name)
  {
    SameHostName(t, ns, name, ns', name');
    if ns + "-" + name == ns' + "-" + name' {
      SameLength(ns, name, ns', name');
      if |ns| < |ns'| {
        StraddlesFrom(ns, name, ns', name');
      } else if |ns'| < |ns| {
        StraddlesFrom(ns', name', ns, name);
      }
    }
    if Straddles(ns, name, ns', name') { StraddlesTo(ns, name, ns', name'); }
    if Straddles(ns', name', ns, name) { StraddlesTo(ns', name', ns, name); }
  }

  // Names with dots, as the Kubernetes API accepts them for most objects.
  predicate IsSubdomain(s: string) {
    && s != "" && s[0] !in "-." && s[|s| - 1] !in "-."
    && forall i | 0 <= i < |s| :: LabelChar(s[i]) || s[i] == '.'
  }

  // A dot becomes a dash.
  lemma SafeSubdomain(s: string)
    requires IsSubdomain(s)
    ensures IsLabel(Safe(s)) && forall i | 0 <= i < |s| :: Safe(s)[i] == if s[i] == '.' then '-' else s[i]
  {
    forall i | 0 <= i < |s| ensures Safe(s)[i] == if s[i] == '.' then '-' else s[i] {
      assert LabelChar(s[i]) || s[i] == '.';
    }
  }

  lemma SafeParts(t: string, ns: string, name: string)
    ensures HostObjectName(t, ns, name) == HostObjectName(Safe(t), Safe(ns), Safe(name))
  {
    var a, b := t + "-" + ns + "-" + name, Safe(t) + "-" + Safe(ns) + "-" + Safe(name);
    forall i | 0 <= i < |a| ensures Safe(a)[i] == b[i] && Safe(b)[i] == b[i] {
      assert a[i] == if i < |t| then t[i] else if i == |t| then '-' else (ns + "-" + name)[i - |t| - 1];
      assert b[i] == if i < |t| then Safe(t)[i] else if i == |t| then '-' else (Safe(ns) + "-" + Safe(name))[i - |t| - 1];
    }
    assert Safe(a) == b && Safe(b) == b;
  }

  /** HostObjectName is not injective, and this is exactly where it is not: two guest objects share a host
      name if and only if their names differ at most in dots for dashes, or a dash (or dot) in one can be
      read as the separator of the other. Objects of one namespace collide on dots only. */
  lemma CollisionExactly(t: string, ns: string, name: string, ns': string, name': string)
    requires IsSubdomain(t) && IsSubdomain(ns) && IsSubdomain(name) && IsSubdomain(ns') && IsSubdomain(name')
    ensures HostObjectName(t, ns, name) == HostObjectName(t, ns', name') <==>
              || (Safe(ns) == Safe(ns') && Safe(name) == Safe(name'))
              || Straddles(Safe(ns), Safe(name), Safe(ns'), Safe(name'))
              || Straddles(Safe(ns'), Safe(name'), Safe(ns), Safe(name))
  {
    hide HostObjectName, Straddles, Safe;
    SafeParts(t, ns, name);
    SafeParts(t, ns', name');
    SafeSubdomain(t);
    SafeSubdomain(ns);
    SafeSubdomain(name);
    SafeSubdomain(ns');
    SafeSubdomain(name');
    LabelCollision(Safe(t), Safe(ns), Safe(name), Safe(ns'), Safe(name'));
  }

  /** Namespace b-c with name d, and namespace b with name c-d. */
  lemma CollisionExists()
    ensures HostObjectName("t", "b-c", "d") == HostObjectName("t", "b", "c-d")
  {
    assert "t" + "-" + "b-c" + "-" + "d" == "t" + "-" + "b" + "-" + "c-d";
  }

  /** Volumes never share a host PVC: for any TenantCluster name the host PVC's name tells the UIDs apart,
      whatever the claims are called. */
  lemma HostPVCNameInjective(t: string, uid: string, uid': string)
    requires IsSubdomain(t) && IsLabel(uid) && IsLabel(uid')
    ensures HostPVCName(t, uid) == Safe(t) + "-pvc-" + uid
    ensures HostPVCName(t, uid) == HostPVCName(t, uid') ==> uid == uid'
  {
    WholePVCName(t, uid);
    WholePVCName(t, uid');
    assert uid == (Safe(t) + "-pvc-" + uid)[|t| + 5..] && uid' == (Safe(t) + "-pvc-" + uid')[|t| + 5..];
  }

  lemma WholePVCName(t: string, uid: string)
    requires IsSubdomain(t) && IsLabel(uid)
    ensures HostPVCName(t, uid) == Safe(t) + "-pvc-" + uid
  {
    var a, b := t + "-pvc-" + uid, Safe(t) + "-pvc-" + uid;
    SafeSubdomain(t);
    assert IsLabel("pvc");
    JoinedIsLabel("pvc", uid);
    JoinedIsLabel(Safe(t), "pvc" + "-" + uid);
    assert b == Safe(t) + "-" + ("pvc" + "-" + uid);
    forall i | 0 <= i < |a| ensures Safe(a)[i] == b[i] {
      assert i >= |t| ==> a[i] == ("-pvc-" + uid)[i - |t|] == b[i];
      if i >= |t| { assert LabelChar(b[i]); }
    }
    assert Safe(a) == b && Safe(b) == b by { LabelIsSafe(b); }
    LabelUnchanged(b);
  }
}
