/** The hostname authority, internal/hostname/hostname.go: which hostnames a guest may publish. */
module Hostname {
  import opened Text
  import opened Wrappers

  function Canonical(s: string): string {
    ToLower(TrimSuffix(TrimSpace(s), '.'))
  }

  // What Allowed's loop asks of one pattern, on a canonical hostname and pattern.
  predicate Grants(p: string, h: string) {
    p != "" &&
    (h == p
     || ('*' !in h && "*." <= p
         && var dot := IndexOf(h, '.'); dot > 0 && h[dot + 1..] == p[2..]))
  }

  predicate Search(h: string, patterns: seq<string>) {
    patterns != [] && (Grants(Canonical(patterns[0]), h) || Search(h, patterns[1..]))
  }

  predicate Allowed(hostname: string, patterns: seq<string>) {
    var h := Canonical(hostname);
    h != "" && Search(h, patterns)
  }

  // Lets through what is allowed, for lists of hostnames.
  function Granted(patterns: seq<string>): string -> Option<string> {
    h => if Allowed(h, patterns) then Some(h) else None
  }

  /* ----- What it means, in labels ----- */

  function Labels(name: string): seq<string> {
    Split(name, '.')
  }

  // The wildcard reading of section 6.4.3 of RFC 6125: the asterisk stands for exactly one label.
  predicate WildcardCovers(pattern: seq<string>, host: seq<string>) {
    && |pattern| == |host| >= 2
    && pattern[0] == "*" && host[0] != "" && pattern[1..] == host[1..]
  }

  predicate Covers(p: string, h: string) {
    p != "" && (p == h || ('*' !in h && WildcardCovers(Labels(p), Labels(h))))
  }

  lemma FirstLabel(h: string)
    ensures var dot := IndexOf(h, '.');
            Labels(h) == if dot < 0 then [h] else [h[..dot]] + Labels(h[dot + 1..])
  {
    var dot := IndexOf(h, '.');
    if dot < 0 {
      SplitPlain(h, '.');
    } else {
      assert h == h[..dot] + ['.'] + h[dot + 1..];
      SplitFirst(h[..dot], h[dot + 1..], '.');
    }
  }

  lemma WildcardPattern(p: string)
    ensures "*." <= p <==> |Labels(p)| >= 2 && Labels(p)[0] == "*"
    ensures "*." <= p ==> Labels(p) == ["*"] + Labels(p[2..])
  {
    FirstLabel(p);
    var dot := IndexOf(p, '.');
    if "*." <= p {
      assert p == "*" + ['.'] + p[2..];
      SplitFirst("*", p[2..], '.');
    } else if dot == 1 {
      assert p[..1] == [p[0]];
    }
  }

  lemma GrantsIsCovers(p: string, h: string)
    ensures Grants(p, h) <==> Covers(p, h)
  {
    FirstLabel(h);
    WildcardPattern(p);
    var dot := IndexOf(h, '.');
    if "*." <= p && dot >= 0 {
      assert Labels(p)[1..] == Labels(p[2..]) && Labels(h)[1..] == Labels(h[dot + 1..]);
      if Labels(p[2..]) == Labels(h[dot + 1..]) {
        SplitInjective(p[2..], h[dot + 1..], '.');
      }
    }
  }

  lemma {:induction false} SearchFinds(h: string, patterns: seq<string>)
    ensures Search(h, patterns) <==> exists i | 0 <= i < |patterns| :: Covers(Canonical(patterns[i]), h)
  {
    if patterns != [] {
      SearchFinds(h, patterns[1..]);
      GrantsIsCovers(Canonical(patterns[0]), h);
      if i :| 0 <= i < |patterns| && Covers(Canonical(patterns[i]), h) && i > 0 {
        assert patterns[1..][i - 1] == patterns[i];
      }
      if i :| 0 <= i < |patterns[1..]| && Covers(Canonical(patterns[1..][i]), h) {
        assert patterns[i + 1] == patterns[1..][i];
      }
    }
  }

  /** The authority, exactly: a hostname is allowed if and only if some pattern is identical to it, or
      is a wildcard that differs from it in one non-empty first label only; both up to case, outer
      blanks and one trailing dot. */
  lemma AllowedMeaning(hostname: string, patterns: seq<string>)
    ensures Allowed(hostname, patterns) <==>
              && Canonical(hostname) != ""
              && exists i | 0 <= i < |patterns| :: Covers(Canonical(patterns[i]), Canonical(hostname))
  {
    SearchFinds(Canonical(hostname), patterns);
  }

  /** Patterns add up: a list allows what one of its parts allows. So granting a domain takes nothing
      away, and the order and repetition of patterns do not matter. */
  lemma AllowedUnion(hostname: string, some: seq<string>, more: seq<string>)
    ensures Allowed(hostname, some + more) <==> Allowed(hostname, some) || Allowed(hostname, more)
  {
    AllowedMeaning(hostname, some);
    AllowedMeaning(hostname, more);
    AllowedMeaning(hostname, some + more);
    var h, all := Canonical(hostname), some + more;
    if i :| 0 <= i < |some| && Covers(Canonical(some[i]), h) { assert all[i] == some[i]; }
    if i :| 0 <= i < |more| && Covers(Canonical(more[i]), h) { assert all[|some| + i] == more[i]; }
    if i :| 0 <= i < |all| && Covers(Canonical(all[i]), h) {
      if i < |some| { assert all[i] == some[i]; } else { assert all[i] == more[i - |some|]; }
    }
  }

  /** A hostname that is itself a wildcard is granted by its own pattern only, never by a broader one. */
  lemma WildcardNeedsItself(hostname: string, patterns: seq<string>)
    requires '*' in Canonical(hostname)
    ensures Allowed(hostname, patterns) <==> exists i | 0 <= i < |patterns| :: Canonical(patterns[i]) == Canonical(hostname)
  {
    AllowedMeaning(hostname, patterns);
    var h := Canonical(hostname);
    if i :| 0 <= i < |patterns| && Canonical(patterns[i]) == h {
      assert Covers(Canonical(patterns[i]), h);
    }
  }

  /** What a pattern list grants has as many labels as one of its patterns: no pattern opens names of
      arbitrary depth. */
  lemma GrantedDepth(hostname: string, patterns: seq<string>) returns (i: nat)
    requires Allowed(hostname, patterns)
    ensures i < |patterns| && |Labels(Canonical(hostname))| == |Labels(Canonical(patterns[i]))|
    ensures |Labels(Canonical(hostname))| >= 2 ==> Labels(Canonical(hostname))[1..] == Labels(Canonical(patterns[i]))[1..]
  {
    AllowedMeaning(hostname, patterns);
    i :| i < |patterns| && Covers(Canonical(patterns[i]), Canonical(hostname));
  }
}
