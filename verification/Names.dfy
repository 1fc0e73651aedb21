/** The names and identifiers the operator derives by formatting strings.

    `strings.ToLower` is modelled on ASCII letters, which is what cloud providers and
    Kubernetes object names are made of. */
module Names {

  // -------- strings --------

  function LowerChar(c: char): char {
    if 'A' <= c <= 'Z' then c - 'A' + 'a' else c
  }

  function UpperChar(c: char): char {
    if 'a' <= c <= 'z' then c - 'a' + 'A' else c
  }

  function ToLower(s: string): (r: string)
    ensures |r| == |s|
    ensures forall i :: 0 <= i < |s| ==> r[i] == LowerChar(s[i])
  {
    seq(|s|, i requires 0 <= i < |s| => LowerChar(s[i]))
  }

  function ToUpper(s: string): (r: string)
    ensures |r| == |s|
    ensures forall i :: 0 <= i < |s| ==> r[i] == UpperChar(s[i])
  {
    seq(|s|, i requires 0 <= i < |s| => UpperChar(s[i]))
  }

  predicate IsLower(s: string) { ToLower(s) == s }

  predicate LowerLetter(c: char) { 'a' <= c <= 'z' }

  predicate UpperLetter(c: char) { 'A' <= c <= 'Z' }

  /** Lower-casing leaves no capital and upper-casing no small letter; either turns a letter into the same
      letter of the other case and leaves every other character alone, so that case is all that is lost. */
  lemma CaseOnly(s: string, i: nat)
    requires i < |s|
    ensures !UpperLetter(ToLower(s)[i]) && !LowerLetter(ToUpper(s)[i])
    ensures !UpperLetter(s[i]) <==> ToLower(s)[i] == s[i]
    ensures !LowerLetter(s[i]) <==> ToUpper(s)[i] == s[i]
    ensures
      UpperLetter(s[i]) ==>
        LowerLetter(ToLower(s)[i]) && ToLower(s)[i] - 'a' == s[i] - 'A' && ToUpper(ToLower(s))[i] == s[i]
    ensures
      LowerLetter(s[i]) ==>
        UpperLetter(ToUpper(s)[i]) && ToUpper(s)[i] - 'A' == s[i] - 'a' && ToLower(ToUpper(s))[i] == s[i]
  {
  }

  lemma IsLowerIff(s: string)
    ensures IsLower(s) <==> forall c :: c in s ==> !UpperLetter(c)
  {
    forall i | 0 <= i < |s|
      ensures ToLower(s)[i] == s[i] <==> !UpperLetter(s[i])
    {
      CaseOnly(s, i);
    }
  }

  /** Lower-casing neither removes nor introduces a dot. */
  lemma LowerKeepsDots(s: string)
    ensures '.' in ToLower(s) <==> '.' in s
  {
  }

  // -------- splitting at a separator --------

  /** What precedes and what follows the first separator. */
  function SplitFirst(sep: char, s: string): (string, string) {
    if s == [] then ([], [])
    else if s[0] == sep then ([], s[1..])
    else ([s[0]] + SplitFirst(sep, s[1..]).0, SplitFirst(sep, s[1..]).1)
  }

  /** What precedes and what follows the last separator. */
  function SplitLast(sep: char, s: string): (string, string) {
    var n := |s| - 1;
    if s == [] then ([], [])
    else if s[n] == sep then (s[..n], [])
    else (SplitLast(sep, s[..n]).0, SplitLast(sep, s[..n]).1 + [s[n]])
  }

  lemma {:induction false} SplitFirstAt(sep: char, head: string, tail: string)
    requires sep !in head
    ensures SplitFirst(sep, head + [sep] + tail) == (head, tail)
  {
    var s := head + [sep] + tail;
    if head == [] {
      assert s[1..] == tail;
    } else {
      assert s[0] == head[0] && s[1..] == head[1..] + [sep] + tail;
      assert [head[0]] + head[1..] == head;
      SplitFirstAt(sep, head[1..], tail);
    }
  }

  lemma {:induction false} SplitLastAt(sep: char, head: string, tail: string)
    requires sep !in tail
    ensures SplitLast(sep, head + [sep] + tail) == (head, tail)
    decreases |tail|
  {
    var s, n := head + [sep] + tail, |head + tail|;
    if tail == [] {
      assert s[..n] == head;
    } else {
      assert s[n] == tail[|tail| - 1] && s[..n] == head + [sep] + tail[..|tail| - 1];
      assert tail[..|tail| - 1] + [s[n]] == tail;
      SplitLastAt(sep, head, tail[..|tail| - 1]);
    }
  }

  // -------- connection identifiers --------

  /** The identifier under which the AWI server files a network domain connection. */
  function ConnectionId(source: string, destination: string): string {
    source + ":" + destination
  }

  /** The ends are read back from the identifier when the source has no colon. */
  lemma ConnectionIdRoundTrip(source: string, destination: string)
    requires ':' !in source
    ensures SplitFirst(':', ConnectionId(source, destination)) == (source, destination)
  {
    SplitFirstAt(':', source, destination);
  }

  /** Among requests whose source has no colon, the identifier determines the request. */
  lemma ConnectionIdInjective(s1: string, d1: string, s2: string, d2: string)
    requires ':' !in s1 && ':' !in s2
    ensures ConnectionId(s1, d1) == ConnectionId(s2, d2) <==> s1 == s2 && d1 == d2
  {
    ConnectionIdRoundTrip(s1, d1);
    ConnectionIdRoundTrip(s2, d2);
  }

  /** Without any assumption on the other request, the identifier of `(s, d)` belongs to
      `(s, d)` alone exactly when neither end contains a colon. */
  lemma ConnectionIdUnambiguous(s: string, d: string)
    ensures (forall s', d' :: ConnectionId(s', d') == ConnectionId(s, d) ==> s' == s && d' == d)
       <==> ':' !in s && ':' !in d
  {
    if ':' in s {
      var i :| 0 <= i < |s| && s[i] == ':';
      var s', d' := s[..i], s[i + 1..] + ":" + d;
      assert s == s[..i] + ":" + s[i + 1..];
      assert ConnectionId(s', d') == ConnectionId(s, d);
      assert s' != s;
    } else if ':' in d {
      var i :| 0 <= i < |d| && d[i] == ':';
      var s', d' := s + ":" + d[..i], d[i + 1..];
      assert d == d[..i] + ":" + d[i + 1..];
      assert ConnectionId(s', d') == ConnectionId(s, d);
      assert s' != s;
    } else {
      forall s', d' | ConnectionId(s', d') == ConnectionId(s, d)
        ensures s' == s && d' == d
      {
        var id := ConnectionId(s, d);
        assert id[|s'|] == ':';
        assert forall i :: 0 <= i < |id| && i != |s| ==>
          id[i] == (if i < |s| then s[i] else d[i - |s| - 1]) != ':';
        assert |s'| == |s|;
        assert s' == id[..|s|] == s;
        assert d' == id[|s| + 1..] == d;
      }
    }
  }

  // -------- custom resource names --------

  /** The name of the resource that mirrors a cloud instance or VPC. */
  function CloudName(provider: string, id: string): string {
    ToLower(provider) + "." + id
  }

  const SUPPORTED_CLOUDS: seq<string> := ["AWS", "GCP"]

  /** Provider and identifier are read back from the name, whatever characters the identifier has. */
  lemma CloudNameRoundTrip(provider: string, id: string)
    requires '.' !in provider
    ensures SplitFirst('.', CloudName(provider, id)) == (ToLower(provider), id)
  {
    LowerKeepsDots(provider);
    SplitFirstAt('.', ToLower(provider), id);
  }

  /** Over dot-free providers the name determines the lower-cased provider and the identifier,
      whatever characters the identifier has. */
  lemma CloudNameInjective(p1: string, id1: string, p2: string, id2: string)
    requires '.' !in p1 && '.' !in p2
    ensures CloudName(p1, id1) == CloudName(p2, id2) <==> ToLower(p1) == ToLower(p2) && id1 == id2
  {
    CloudNameRoundTrip(p1, id1);
    CloudNameRoundTrip(p2, id2);
  }

  /** In particular no two instances of the supported clouds share a name. */
  lemma SupportedCloudNames(p1: string, id1: string, p2: string, id2: string)
    requires p1 in SUPPORTED_CLOUDS && p2 in SUPPORTED_CLOUDS
    ensures CloudName(p1, id1) == CloudName(p2, id2) <==> p1 == p2 && id1 == id2
  {
    assert SUPPORTED_CLOUDS[0] == "AWS" && SUPPORTED_CLOUDS[1] == "GCP";
    CloudNameInjective(p1, id1, p2, id2);
    assert ToLower("AWS")[0] == 'a' && ToLower("GCP")[0] == 'g';
  }

  /** The network domain derived from a VPC resource. */
  function VpcDomainName(provider: string, name: string, id: string): string {
    "vpc." + ToLower(provider) + "." + name + "." + id
  }

  /** The network domain derived from a VPN resource. */
  function VpnDomainName(id: string): string {
    "vpn." + ToLower(id)
  }

  datatype DomainParts = DomainParts(kind: string, provider: string, name: string, id: string)

  /** Reading a VPC domain name: kind and provider end at the first dots, the identifier begins after
      the last one, and the display name is what lies between. */
  function PartsOf(domain: string): DomainParts {
    var (kind, rest) := SplitFirst('.', domain);
    var (provider, nameAndId) := SplitFirst('.', rest);
    var (name, id) := SplitLast('.', nameAndId);
    DomainParts(kind, provider, name, id)
  }

  /** Dots in the display name do no harm. */
  lemma VpcDomainNameRoundTrip(provider: string, name: string, id: string)
    requires '.' !in provider && '.' !in id
    ensures PartsOf(VpcDomainName(provider, name, id)) == DomainParts("vpc", ToLower(provider), name, id)
  {
    LowerKeepsDots(provider);
    var rest := ToLower(provider) + "." + (name + "." + id);
    assert VpcDomainName(provider, name, id) == "vpc" + "." + rest;
    SplitFirstAt('.', "vpc", rest);
    SplitFirstAt('.', ToLower(provider), name + "." + id);
    SplitLastAt('.', name, id);
  }

  /** With dot-free providers and identifiers a VPC domain name determines provider, display
      name and identifier. */
  lemma VpcDomainNameInjective(p1: string, n1: string, id1: string, p2: string, n2: string, id2: string)
    requires '.' !in p1 && '.' !in p2 && '.' !in id1 && '.' !in id2
    ensures VpcDomainName(p1, n1, id1) == VpcDomainName(p2, n2, id2)
       <==> ToLower(p1) == ToLower(p2) && n1 == n2 && id1 == id2
  {
    VpcDomainNameRoundTrip(p1, n1, id1);
    VpcDomainNameRoundTrip(p2, n2, id2);
  }

  /** Three dot-free parts are recovered whatever the other three parts are. */
  lemma ThreeParts(a: string, b: string, c: string, a': string, b': string, c': string)
    requires '.' !in a && '.' !in b && '.' !in c
    requires a' + "." + b' + "." + c' == a + "." + b + "." + c
    ensures a' == a && b' == b && c' == c
  {
    var s := a + "." + b + "." + c;
    var s' := a' + "." + b' + "." + c';
    assert forall i :: 0 <= i < |s| && i != |a| && i != |a| + 1 + |b| ==>
      s[i] == (if i < |a| then a[i] else if i < |a| + 1 + |b| then b[i - |a| - 1] else c[i - |a| - |b| - 2]) != '.';
    assert s'[|a'|] == '.' && s'[|a'| + 1 + |b'|] == '.';
    assert |a'| == |a| && |b'| == |b|;
    assert a' == s'[..|a|] == s[..|a|] == a;
    assert b' == s'[|a| + 1..|a| + 1 + |b|] == s[|a| + 1..|a| + 1 + |b|] == b;
    assert c' == s'[|a| + |b| + 2..] == s[|a| + |b| + 2..] == c;
  }

  ghost predicate OnlyVpc(provider: string, name: string, id: string, p: string, n: string, i: string) {
    VpcDomainName(p, n, i) == VpcDomainName(provider, name, id) ==>
      ToLower(p) == ToLower(provider) && n == name && i == id
  }

  /** A dot in one of the parts lets another VPC claim the name. */
  lemma DotInProvider(provider: string, name: string, id: string) returns (p: string, n: string)
    requires '.' in provider
    ensures !OnlyVpc(provider, name, id, p, n, id)
  {
    var low := ToLower(provider);
    LowerKeepsDots(provider);
    var d :| 0 <= d < |low| && low[d] == '.';
    p, n := low[..d], low[d + 1..] + "." + name;
    assert low == low[..d] + "." + low[d + 1..];
    assert ToLower(p) == p && |p| < |low|;
    assert "vpc." + p + "." + n + "." + id == "vpc." + low + "." + name + "." + id;
  }

  lemma DotInName(provider: string, name: string, id: string) returns (n: string, i: string)
    requires '.' in name
    ensures !OnlyVpc(provider, name, id, provider, n, i)
  {
    var d :| 0 <= d < |name| && name[d] == '.';
    n, i := name[..d], name[d + 1..] + "." + id;
    assert name == n + "." + name[d + 1..];
    assert "vpc." + ToLower(provider) + "." + n + "." + i == "vpc." + ToLower(provider) + "." + name + "." + id;
    assert |n| < |name|;
  }

  lemma DotInId(provider: string, name: string, id: string) returns (n: string, i: string)
    requires '.' in id
    ensures !OnlyVpc(provider, name, id, provider, n, i)
  {
    var d :| 0 <= d < |id| && id[d] == '.';
    n, i := name + "." + id[..d], id[d + 1..];
    assert id == id[..d] + "." + i;
    assert "vpc." + ToLower(provider) + "." + n + "." + i == "vpc." + ToLower(provider) + "." + name + "." + id;
    assert |n| > |name|;
  }

  /** Without any assumption on the other VPC, the name belongs to one VPC alone exactly when neither
      provider nor display name nor identifier contains a dot. */
  lemma VpcDomainNameUnambiguous(provider: string, name: string, id: string)
    ensures
      (forall p, n, i :: OnlyVpc(provider, name, id, p, n, i)) <==> '.' !in provider && '.' !in name && '.' !in id
  {
    if '.' in provider {
      var p, n := DotInProvider(provider, name, id);
    } else if '.' in name {
      var n, i := DotInName(provider, name, id);
    } else if '.' in id {
      var n, i := DotInId(provider, name, id);
    } else {
      LowerKeepsDots(provider);
      forall p, n, i
        ensures OnlyVpc(provider, name, id, p, n, i)
      {
        if VpcDomainName(p, n, i) == VpcDomainName(provider, name, id) {
          var s, s' := ToLower(provider) + "." + name + "." + id, ToLower(p) + "." + n + "." + i;
          assert s == VpcDomainName(provider, name, id)[4..] && s' == VpcDomainName(p, n, i)[4..];
          ThreeParts(ToLower(provider), name, id, ToLower(p), n, i);
        }
      }
    }
  }

  /** Two VPCs of one cloud whose display names and identifiers both differ, with one domain name. */
  lemma VpcDomainNameCollision()
    ensures VpcDomainName("AWS", "a", "b.c") == VpcDomainName("AWS", "a.b", "c")
  {
  }

  lemma VpnDomainNameRoundTrip(id: string)
    ensures SplitFirst('.', VpnDomainName(id)) == ("vpn", ToLower(id))
  {
    assert VpnDomainName(id) == "vpn" + "." + ToLower(id);
    SplitFirstAt('.', "vpn", ToLower(id));
  }

  /** VPC and VPN domains never collide, and VPN domains of lower-case identifiers never collide. */
  lemma VpnDomainNameInjective(id1: string, id2: string)
    ensures VpnDomainName(id1) == VpnDomainName(id2) <==> ToLower(id1) == ToLower(id2)
    ensures forall p, n, id :: VpcDomainName(p, n, id) != VpnDomainName(id1)
  {
    VpnDomainNameRoundTrip(id1);
    VpnDomainNameRoundTrip(id2);
    forall p, n, id
      ensures VpcDomainName(p, n, id) != VpnDomainName(id1)
    {
      assert VpcDomainName(p, n, id)[2] == 'c' && VpnDomainName(id1)[2] == 'n';
    }
  }
}
