/** Wildcard host name matching (certwatch/cert_check.py) against the label-by-label rule of
    section 6.4.3 of RFC 6125. */
module HostnameMatch {
  import opened Wrappers

  // ---- labels ----

  /** The index of the first dot, or the length of s. */
  function FirstDot(s: string): (i: nat)
    ensures i <= |s| && (i < |s| ==> s[i] == '.')
    ensures forall k | 0 <= k < i :: s[k] != '.'
  {
    if s == "" || s[0] == '.' then 0 else 1 + FirstDot(s[1..])
  }

  /** `s.split(".")`. */
  function Labels(s: string): (r: seq<string>)
    ensures |r| >= 1
    decreases |s|
  {
    var i := FirstDot(s);
    if i == |s| then [s] else [s[..i]] + Labels(s[i + 1..])
  }

  /** `".".join(labels)`. */
  function Join(labels: seq<string>): string
    requires labels != []
  {
    if |labels| == 1 then labels[0] else labels[0] + "." + Join(labels[1..])
  }

  lemma {:induction false} JoinOfLabels(s: string)
    ensures Join(Labels(s)) == s
    decreases |s|
  {
    var i := FirstDot(s);
    if i < |s| {
      JoinOfLabels(s[i + 1..]);
      assert Labels(s)[1..] == Labels(s[i + 1..]);
      assert s == s[..i] + "." + s[i + 1..];
    }
  }

  lemma LabelsInjective(a: string, b: string)
    ensures Labels(a) == Labels(b) <==> a == b
  {
    JoinOfLabels(a);
    JoinOfLabels(b);
  }

  // ---- the matcher ----

  /** `_match_dns`. */
  predicate MatchDns(hostname: string, pattern: string) {
    if pattern == hostname then true
    else if !("*." <= pattern) then false
    else
      var i := FirstDot(hostname);
      i < |hostname| && hostname[i + 1..] == pattern[2..]
  }

  /** The rule: the same name, or `*` as the whole left-most of two or more labels, standing
      for exactly one label of the host name. */
  predicate MatchesByLabel(host: seq<string>, pattern: seq<string>) {
    || pattern == host
    || (|pattern| >= 2 && pattern[0] == "*" && |pattern| == |host| && pattern[1..] == host[1..])
  }

  lemma StarPrefix(pattern: string)
    ensures "*." <= pattern <==> |Labels(pattern)| >= 2 && Labels(pattern)[0] == "*"
    ensures "*." <= pattern ==> Labels(pattern)[1..] == Labels(pattern[2..])
  {
    var i := FirstDot(pattern);
    assert "*." <= pattern ==> pattern[0] == '*' && pattern[1] == '.';
    if i == 1 && |pattern| > 1 && pattern[0] == '*' {
      assert pattern[..1] == "*" && pattern[..2] == "*.";
    }
    if |Labels(pattern)| >= 2 {
      assert |Labels(pattern)[0]| == i;
    }
  }

  /** The matcher that works on the first dot decides the rule on all labels. */
  lemma MatchIsByLabel(hostname: string, pattern: string)
    ensures MatchDns(hostname, pattern) <==> MatchesByLabel(Labels(hostname), Labels(pattern))
  {
    StarPrefix(pattern);
    LabelsInjective(hostname, pattern);
    var i := FirstDot(hostname);
    if "*." <= pattern && i < |hostname| {
      assert Labels(hostname)[1..] == Labels(hostname[i + 1..]);
      LabelsInjective(hostname[i + 1..], pattern[2..]);
    }
  }

  // ---- the certificate ----

  /** A certificate's DNS subject alternative names and its first common name. */
  datatype Names = Names(sans: seq<string>, cn: Option<string>)

  function LowerChar(c: char): char {
    if 'A' <= c <= 'Z' then 'a' + (c - 'A') else c
  }

  function Lower(s: string): (r: string)
    ensures |r| == |s| && forall i | 0 <= i < |s| :: r[i] == LowerChar(s[i])
    ensures forall i | 0 <= i < |s| && 'A' <= s[i] <= 'Z' :: 'a' <= r[i] <= 'z' && r[i] as int - 'a' as int == s[i] as int - 'A' as int
    ensures forall i | 0 <= i < |s| && !('A' <= s[i] <= 'Z') :: r[i] == s[i]
  {
    seq(|s|, i requires 0 <= i < |s| => LowerChar(s[i]))
  }

  /** `s.rstrip(".")`. */
  function StripDots(s: string): (r: string)
    ensures r <= s && (r == "" || r[|r| - 1] != '.')
    ensures forall i | |r| <= i < |s| :: s[i] == '.'
  {
    if s != "" && s[|s| - 1] == '.' then StripDots(s[..|s| - 1]) else s
  }

  function Normal(hostname: string): string {
    StripDots(Lower(hostname))
  }

  predicate AnyMatches(host: string, patterns: seq<string>) {
    exists i | 0 <= i < |patterns| :: MatchDns(host, Lower(patterns[i]))
  }

  /** `_hostname_matches`. */
  predicate HostnameMatches(cert: Names, hostname: string) {
    var host := Normal(hostname);
    if cert.sans != [] then AnyMatches(host, cert.sans)
    else cert.cn.Some? && cert.cn.value != "" && MatchDns(host, Lower(cert.cn.value))
  }

  /** A certificate matches exactly when one of its DNS names does label by label, or, if it has
      none, its common name does; without either it matches nothing. */
  lemma HostnameMatchIsByLabel(cert: Names, hostname: string)
    ensures cert.sans != [] ==>
      (HostnameMatches(cert, hostname) <==>
       exists i | 0 <= i < |cert.sans| :: MatchesByLabel(Labels(Normal(hostname)), Labels(Lower(cert.sans[i]))))
    ensures cert.sans == [] && cert.cn.Some? && cert.cn.value != "" ==>
      (HostnameMatches(cert, hostname) <==> MatchesByLabel(Labels(Normal(hostname)), Labels(Lower(cert.cn.value))))
    ensures cert.sans == [] && (cert.cn.None? || cert.cn.value == "") ==> !HostnameMatches(cert, hostname)
  {
    hide Labels, MatchDns, MatchesByLabel, Normal;
    var host := Normal(hostname);
    forall i | 0 <= i < |cert.sans|
      ensures MatchDns(host, Lower(cert.sans[i])) <==> MatchesByLabel(Labels(host), Labels(Lower(cert.sans[i])))
    {
      MatchIsByLabel(host, Lower(cert.sans[i]));
    }
    if cert.cn.Some? {
      MatchIsByLabel(host, Lower(cert.cn.value));
    }
  }

  /** The same character, or the two cases of one ASCII letter. */
  predicate SameLetter(a: char, b: char) {
    || a == b
    || ('A' <= a <= 'Z' && b as int == a as int + 32)
    || ('A' <= b <= 'Z' && a as int == b as int + 32)
  }

  lemma SameLettersLower(a: string, b: string)
    requires |a| == |b| && forall i | 0 <= i < |a| :: SameLetter(a[i], b[i])
    ensures Lower(a) == Lower(b)
  {
    forall i | 0 <= i < |a| ensures Lower(a)[i] == Lower(b)[i] {
      assert SameLetter(a[i], b[i]);
    }
  }

  /** Names that differ only in the case of ASCII letters match alike, in the host name and in the
      certificate's DNS names, and so does the host name with a trailing dot. */
  lemma CaseAndRootDotDoNotMatter(cert: Names, hostname: string, other: string, sans: seq<string>)
    requires |hostname| == |other| && forall i | 0 <= i < |hostname| :: SameLetter(hostname[i], other[i])
    requires |sans| == |cert.sans| && forall k | 0 <= k < |sans| :: Lower(sans[k]) == Lower(cert.sans[k])
    ensures HostnameMatches(cert, hostname) == HostnameMatches(cert, other) == HostnameMatches(cert, hostname + ".")
    ensures HostnameMatches(cert.(sans := sans), hostname) == HostnameMatches(cert, hostname)
  {
    hide MatchDns;
    SameLettersLower(hostname, other);
    assert Lower(hostname + ".")[..|hostname|] == Lower(hostname);
    assert Lower(hostname + ".")[|hostname|] == '.';
    assert Normal(hostname + ".") == Normal(hostname);
  }

  /** The wildcard stands for one label, not for none and not for two, and a star anywhere but in
      front of the first dot is an ordinary character. */
  lemma WildcardIsOneLabel(first: string, more: string, domain: string, pattern: string)
    requires '.' !in first && !("*." <= pattern)
    ensures MatchDns(first + "." + domain, "*." + domain)
    ensures !MatchDns(domain, "*." + domain)
    ensures !MatchDns(first + "." + more + "." + domain, "*." + domain)
    ensures forall hostname: string :: MatchDns(hostname, pattern) <==> hostname == pattern
  {
    FirstDotAfter(first, domain);
    FirstDotAfter(first, more + "." + domain);
    assert first + "." + more + "." + domain == first + "." + (more + "." + domain);
    assert ("*." + domain)[2..] == domain;
    assert |"*." + domain| == |domain| + 2;
    assert |more + "." + domain| > |domain|;
    assert |first + "." + more + "." + domain| == |first| + |more| + |domain| + 2;
    assert first == "" ==> (first + "." + more + "." + domain)[0] == '.';
  }

  lemma {:induction false} FirstDotAfter(first: string, rest: string)
    requires '.' !in first
    ensures FirstDot(first + "." + rest) == |first|
    ensures (first + "." + rest)[|first| + 1..] == rest
  {
    var s := first + "." + rest;
    assert forall i | 0 <= i < |first| :: s[i] == first[i];
    assert s[|first|] == '.';
  }
}
