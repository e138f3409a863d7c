/** Egress classes and their intersection, the meet of the class order. */
module Egress {
  import opened Sorting

  datatype Kind = NoEgress | Loopback | Lan | Declared | AnyHost {
    /** The position in the order of classes. */
    function Rank(): nat {
      match this
      case NoEgress => 0
      case Loopback => 1
      case Lan => 2
      case Declared => 3
      case AnyHost => 4
    }
  }

  datatype EgressClass = EgressClass(kind: Kind, hosts: seq<string>)

  // ---------------------------------------------------------------- host lists

  /** The elements of s at their first occurrence. */
  function Dedupe(s: seq<string>): seq<string> {
    if s == [] then []
    else
      var init, last := s[..|s| - 1], s[|s| - 1];
      Dedupe(init) + if last in init then [] else [last]
  }

  function NormalizeHosts(le: (string, string) -> bool, hosts: seq<string>): seq<string> {
    Sort(le, Dedupe(hosts))
  }

  function Allowed(hosts: seq<string>, allowed: seq<string>): seq<string> {
    if hosts == [] then []
    else (if hosts[0] in allowed then [hosts[0]] else []) + Allowed(hosts[1..], allowed)
  }

  function IntersectHosts(le: (string, string) -> bool, left: seq<string>, right: seq<string>): seq<string> {
    NormalizeHosts(le, Allowed(left, right))
  }

  ghost function Set(hosts: seq<string>): set<string> {
    set h | h in hosts
  }

  lemma {:induction false} DedupeIsSet(s: seq<string>)
    ensures multiset(Dedupe(s)) == multiset(Set(s))
  {
    if s == [] {
      assert Set(s) == {};
    } else {
      var init, last := s[..|s| - 1], s[|s| - 1];
      DedupeIsSet(init);
      assert s == init + [last];
      assert Set(s) == Set(init) + {last};
    }
  }

  /** The normal form depends on the set of hosts alone, and keeps it. */
  lemma NormalFormOfSet(le: (string, string) -> bool, a: seq<string>, b: seq<string>)
    requires TotalOrder(le)
    ensures NormalizeHosts(le, a) == NormalizeHosts(le, b) <==> Set(a) == Set(b)
    ensures Set(NormalizeHosts(le, a)) == Set(a)
    ensures NormalizeHosts(le, NormalizeHosts(le, a)) == NormalizeHosts(le, a)
  {
    NormalizedSet(le, a);
    NormalizedSet(le, b);
    NormalizedSet(le, NormalizeHosts(le, a));
    if Set(a) == Set(b) {
      SortedUnique(le, NormalizeHosts(le, a), NormalizeHosts(le, b));
    }
    SortedUnique(le, NormalizeHosts(le, a), NormalizeHosts(le, NormalizeHosts(le, a)));
  }

  lemma NormalizedSet(le: (string, string) -> bool, a: seq<string>)
    requires TotalOrder(le)
    ensures multiset(NormalizeHosts(le, a)) == multiset(Set(a))
    ensures SortedBy(le, NormalizeHosts(le, a))
    ensures Set(NormalizeHosts(le, a)) == Set(a)
  {
    DedupeIsSet(a);
    SortMultiset(le, Dedupe(a));
    SortSorted(le, Dedupe(a));
    var n := NormalizeHosts(le, a);
    forall h ensures h in n <==> h in Set(a) {
      assert h in n <==> h in multiset(n);
    }
  }

  lemma {:induction false} AllowedSet(hosts: seq<string>, allowed: seq<string>)
    ensures Set(Allowed(hosts, allowed)) == Set(hosts) * Set(allowed)
  {
    if hosts != [] {
      AllowedSet(hosts[1..], allowed);
      assert Set(hosts) == {hosts[0]} + Set(hosts[1..]);
      forall h ensures h in Allowed(hosts, allowed) <==> h in Set(hosts) && h in allowed {
        assert h in Allowed(hosts[1..], allowed) <==> h in Set(Allowed(hosts[1..], allowed));
      }
    }
  }

  // ---------------------------------------------------------------- intersection

  function MakeClass(le: (string, string) -> bool, kind: Kind, hosts: seq<string>): EgressClass {
    EgressClass(kind, NormalizeHosts(le, hosts))
  }

  function IntersectEgress(le: (string, string) -> bool, left: EgressClass, right: EgressClass): EgressClass {
    var kind := if left.kind.Rank() <= right.kind.Rank() then left.kind else right.kind;
    if kind != Declared then MakeClass(le, kind, [])
    else if left.kind != Declared then MakeClass(le, kind, right.hosts)
    else if right.kind != Declared then MakeClass(le, kind, left.hosts)
    else MakeClass(le, kind, IntersectHosts(le, left.hosts, right.hosts))
  }

  function ResolveEgress(le: (string, string) -> bool, manifest: EgressClass, template: EgressClass,
                         workspace: EgressClass, organization: EgressClass): EgressClass
  {
    IntersectEgress(le, IntersectEgress(le, manifest, template), IntersectEgress(le, workspace, organization))
  }

  /** Hosts in normal form, and none where the class does not list hosts. */
  ghost predicate Normal(le: (string, string) -> bool, c: EgressClass) {
    c.hosts == NormalizeHosts(le, c.hosts) && (c.kind != Declared ==> c.hosts == [])
  }

  /** The order of classes, refined by host inclusion at declared. */
  ghost predicate Within(a: EgressClass, b: EgressClass) {
    || a.kind.Rank() < b.kind.Rank()
    || (a.kind == b.kind && (a.kind == Declared ==> Set(a.hosts) <= Set(b.hosts)))
  }

  ghost function MeetHosts(a: EgressClass, b: EgressClass): set<string> {
    if a.kind != Declared then Set(b.hosts)
    else if b.kind != Declared then Set(a.hosts)
    else Set(a.hosts) * Set(b.hosts)
  }

  lemma MeetKind(le: (string, string) -> bool, a: EgressClass, b: EgressClass)
    requires TotalOrder(le)
    ensures Normal(le, IntersectEgress(le, a, b))
    ensures IntersectEgress(le, a, b).kind == Declared ==> Set(IntersectEgress(le, a, b).hosts) == MeetHosts(a, b)
  {
    NormalFormOfSet(le, [], []);
    NormalFormOfSet(le, a.hosts, a.hosts);
    NormalFormOfSet(le, b.hosts, b.hosts);
    var both := Allowed(a.hosts, b.hosts);
    AllowedSet(a.hosts, b.hosts);
    NormalFormOfSet(le, both, both);
    NormalFormOfSet(le, NormalizeHosts(le, both), both);
  }

  /** The intersection is the greatest lower bound, of all classes. */
  lemma IntersectIsMeet(le: (string, string) -> bool, a: EgressClass, b: EgressClass, c: EgressClass)
    requires TotalOrder(le)
    ensures Within(IntersectEgress(le, a, b), a) && Within(IntersectEgress(le, a, b), b)
    ensures Within(c, IntersectEgress(le, a, b)) <==> Within(c, a) && Within(c, b)
  {
    MeetKind(le, a, b);
  }

  lemma WithinAntisymmetric(le: (string, string) -> bool, a: EgressClass, b: EgressClass)
    requires TotalOrder(le) && Normal(le, a) && Normal(le, b)
    requires Within(a, b) && Within(b, a)
    ensures a == b
  {
    NormalFormOfSet(le, a.hosts, b.hosts);
  }

  lemma WithinPreorder(a: EgressClass, b: EgressClass, c: EgressClass)
    ensures Within(a, a)
    ensures Within(a, b) && Within(b, c) ==> Within(a, c)
  {}

  lemma IntersectCommutes(le: (string, string) -> bool, a: EgressClass, b: EgressClass)
    requires TotalOrder(le)
    ensures IntersectEgress(le, a, b) == IntersectEgress(le, b, a)
  {
    var x, y := IntersectEgress(le, a, b), IntersectEgress(le, b, a);
    MeetKind(le, a, b);
    MeetKind(le, b, a);
    IntersectIsMeet(le, a, b, y);
    IntersectIsMeet(le, b, a, x);
    WithinAntisymmetric(le, x, y);
  }

  lemma IntersectAssociates(le: (string, string) -> bool, a: EgressClass, b: EgressClass, c: EgressClass)
    requires TotalOrder(le)
    ensures IntersectEgress(le, IntersectEgress(le, a, b), c) == IntersectEgress(le, a, IntersectEgress(le, b, c))
  {
    var ab, bc := IntersectEgress(le, a, b), IntersectEgress(le, b, c);
    var x, y := IntersectEgress(le, ab, c), IntersectEgress(le, a, bc);
    MeetKind(le, ab, c);
    MeetKind(le, a, bc);
    WithinPreorder(x, x, x);
    WithinPreorder(y, y, y);
    IntersectIsMeet(le, ab, c, x);
    IntersectIsMeet(le, a, b, x);
    IntersectIsMeet(le, b, c, x);
    IntersectIsMeet(le, a, bc, x);
    IntersectIsMeet(le, a, bc, y);
    IntersectIsMeet(le, b, c, y);
    IntersectIsMeet(le, a, b, y);
    IntersectIsMeet(le, ab, c, y);
    WithinAntisymmetric(le, x, y);
  }

  /** Intersecting a class with itself gives it back exactly when it is in normal form. */
  lemma IntersectIdempotent(le: (string, string) -> bool, a: EgressClass)
    requires TotalOrder(le)
    ensures IntersectEgress(le, a, a) == a <==> Normal(le, a)
  {
    MeetKind(le, a, a);
    if Normal(le, a) {
      WithinPreorder(a, a, a);
      IntersectIsMeet(le, a, a, a);
      WithinAntisymmetric(le, IntersectEgress(le, a, a), a);
    }
  }

  // ---------------------------------------------------------------- four sources, any order

  function MeetAll(le: (string, string) -> bool, sources: seq<EgressClass>): EgressClass
    requires sources != []
  {
    if |sources| == 1 then MakeClass(le, sources[0].kind, if sources[0].kind == Declared then sources[0].hosts else [])
    else IntersectEgress(le, sources[0], MeetAll(le, sources[1..]))
  }

  /** A class is within the meet of a list exactly when it is within each of its members. */
  lemma {:induction false} MeetAllIsMeet(le: (string, string) -> bool, sources: seq<EgressClass>, c: EgressClass)
    requires TotalOrder(le) && sources != []
    ensures Normal(le, MeetAll(le, sources))
    ensures Within(c, MeetAll(le, sources)) <==> forall s :: s in sources ==> Within(c, s)
  {
    if |sources| == 1 {
      assert sources == [sources[0]];
      NormalFormOfSet(le, [], []);
      NormalFormOfSet(le, sources[0].hosts, sources[0].hosts);
      assert Within(c, MeetAll(le, sources)) <==> Within(c, sources[0]);
      assert forall s :: s in sources <==> s == sources[0];
    } else {
      MeetAllIsMeet(le, sources[1..], c);
      MeetKind(le, sources[0], MeetAll(le, sources[1..]));
      IntersectIsMeet(le, sources[0], MeetAll(le, sources[1..]), c);
      assert sources == [sources[0]] + sources[1..];
    }
  }

  lemma MeetAllOrderFree(le: (string, string) -> bool, a: seq<EgressClass>, b: seq<EgressClass>)
    requires TotalOrder(le) && a != [] && b != [] && forall s :: s in a <==> s in b
    ensures MeetAll(le, a) == MeetAll(le, b)
  {
    var x, y := MeetAll(le, a), MeetAll(le, b);
    WithinPreorder(x, x, x);
    WithinPreorder(y, y, y);
    MeetAllIsMeet(le, a, x);
    MeetAllIsMeet(le, b, x);
    MeetAllIsMeet(le, a, y);
    MeetAllIsMeet(le, b, y);
    WithinAntisymmetric(le, x, y);
  }

  /** The resolved class is the meet of the four sources in whatever order and grouping
      they are taken, and even if some are repeated. */
  lemma ResolveOrderFree(le: (string, string) -> bool, manifest: EgressClass, template: EgressClass,
                         workspace: EgressClass, organization: EgressClass, order: seq<EgressClass>)
    requires TotalOrder(le)
    requires forall s :: s in order <==> s in {manifest, template, workspace, organization}
    ensures order != []
    ensures ResolveEgress(le, manifest, template, workspace, organization) == MeetAll(le, order)
  {
    assert manifest in order;
    var left, right := IntersectEgress(le, manifest, template), IntersectEgress(le, workspace, organization);
    var x, y := IntersectEgress(le, left, right), MeetAll(le, order);
    MeetKind(le, left, right);
    WithinPreorder(x, x, x);
    WithinPreorder(y, y, y);
    MeetAllIsMeet(le, order, x);
    MeetAllIsMeet(le, order, y);
    forall c | c == x || c == y
      ensures Within(c, x) <==> forall s :: s in order ==> Within(c, s)
    {
      IntersectIsMeet(le, left, right, c);
      IntersectIsMeet(le, manifest, template, c);
      IntersectIsMeet(le, workspace, organization, c);
      assert (forall s :: s in order ==> Within(c, s)) <==>
        (forall s :: s in {manifest, template, workspace, organization} ==> Within(c, s));
    }
    WithinAntisymmetric(le, x, y);
  }

  // ---------------------------------------------------------------- what a class allows

  predicate Allows(c: EgressClass, destination: string) {
    || c.kind == AnyHost
    || (c.kind == Loopback && destination == "loopback")
    || (c.kind == Lan && destination == "rfc1918")
    || (c.kind == Declared && destination in c.hosts)
  }

  predicate AllAllow(sources: seq<EgressClass>, destination: string) {
    forall s :: s in sources ==> Allows(s, destination)
  }

  /** The class with the fewest rights is loopback or lan, and some other source refuses what
      it stands for: a list of hosts without it, or the other of the two. */
  predicate Clashes(lowest: EgressClass, other: EgressClass) {
    && (lowest.kind == Loopback || lowest.kind == Lan)
    && !Allows(other, if lowest.kind == Loopback then "loopback" else "rfc1918")
  }

  predicate IsLowest(c: EgressClass, sources: seq<EgressClass>) {
    c in sources && forall s :: s in sources ==> c.kind.Rank() <= s.kind.Rank()
  }

  lemma {:induction false} MeetAllKind(le: (string, string) -> bool, sources: seq<EgressClass>)
    requires sources != []
    ensures exists c :: IsLowest(c, sources) && c.kind == MeetAll(le, sources).kind
  {
    if |sources| == 1 {
      assert IsLowest(sources[0], sources);
    } else {
      MeetAllKind(le, sources[1..]);
      var c :| IsLowest(c, sources[1..]) && c.kind == MeetAll(le, sources[1..]).kind;
      assert sources == [sources[0]] + sources[1..];
      assert IsLowest(if sources[0].kind.Rank() <= c.kind.Rank() then sources[0] else c, sources);
    }
  }

  /** A meet that lists hosts lists exactly what all sources allow. */
  lemma DeclaredMeet(le: (string, string) -> bool, sources: seq<EgressClass>, destination: string)
    requires TotalOrder(le) && sources != [] && MeetAll(le, sources).kind == Declared
    ensures destination in MeetAll(le, sources).hosts <==> AllAllow(sources, destination)
  {
    var m, one := MeetAll(le, sources), EgressClass(Declared, [destination]);
    MeetAllKind(le, sources);
    MeetAllIsMeet(le, sources, one);
    assert Set(one.hosts) == {destination};
    forall s | s in sources
      ensures Within(one, s) <==> Allows(s, destination)
    {
      assert destination in s.hosts <==> destination in Set(s.hosts);
    }
    assert destination in m.hosts <==> destination in Set(m.hosts);
  }

  /** The meet allows whatever all sources allow. */
  lemma MeetAllowsCommon(le: (string, string) -> bool, sources: seq<EgressClass>, destination: string)
    requires TotalOrder(le) && sources != [] && AllAllow(sources, destination)
    ensures Allows(MeetAll(le, sources), destination)
  {
    MeetAllKind(le, sources);
    if MeetAll(le, sources).kind == Declared {
      DeclaredMeet(le, sources, destination);
    }
  }

  /** The meet allows nothing that a source refuses, if and only if no source clashes with the
      lowest: in the order of classes loopback is below lan and below any list of hosts, but
      what it allows is in neither unless the list names it. */
  lemma MeetAllowsExactly(le: (string, string) -> bool, sources: seq<EgressClass>)
    requires TotalOrder(le) && sources != []
    ensures (forall d :: Allows(MeetAll(le, sources), d) <==> AllAllow(sources, d))
      <==> forall c, s :: IsLowest(c, sources) && s in sources ==> !Clashes(c, s)
  {
    var m := MeetAll(le, sources);
    MeetAllKind(le, sources);
    var c :| IsLowest(c, sources) && c.kind == m.kind;
    forall d | AllAllow(sources, d)
      ensures Allows(m, d)
    {
      MeetAllowsCommon(le, sources, d);
    }
    if forall d :: Allows(m, d) <==> AllAllow(sources, d) {
      NoClash(m, sources);
    } else {
      var d :| Allows(m, d) && !AllAllow(sources, d);
      var s :| s in sources && !Allows(s, d);
      if m.kind == Declared {
        DeclaredMeet(le, sources, d);
      }
      assert Clashes(c, s);
    }
  }

  lemma NoClash(m: EgressClass, sources: seq<EgressClass>)
    requires forall d :: Allows(m, d) ==> AllAllow(sources, d)
    requires exists c :: IsLowest(c, sources) && c.kind == m.kind
    ensures forall c, s :: IsLowest(c, sources) && s in sources ==> !Clashes(c, s)
  {
    assert m.kind == Loopback ==> AllAllow(sources, "loopback");
    assert m.kind == Lan ==> AllAllow(sources, "rfc1918");
  }

  /** The class that a placement gets, against its four sources. */
  lemma ResolveAllows(le: (string, string) -> bool, manifest: EgressClass, template: EgressClass,
                      workspace: EgressClass, organization: EgressClass)
    requires TotalOrder(le)
    ensures var sources := [manifest, template, workspace, organization];
      var resolved := ResolveEgress(le, manifest, template, workspace, organization);
      (forall d :: Allows(resolved, d) <==> AllAllow(sources, d))
      <==> forall c, s :: IsLowest(c, sources) && s in sources ==> !Clashes(c, s)
  {
    var sources := [manifest, template, workspace, organization];
    ResolveOrderFree(le, manifest, template, workspace, organization, sources);
    MeetAllowsExactly(le, sources);
  }

  /** It happens: loopback met with a list of hosts. */
  lemma LoopbackEscapes(le: (string, string) -> bool, host: string)
    requires host != "loopback"
    ensures var listed := EgressClass(Declared, [host]);
      && Allows(IntersectEgress(le, EgressClass(Loopback, []), listed), "loopback")
      && !Allows(listed, "loopback")
  {}

  // ---------------------------------------------------------------- the order of classes

  const ORDER := [NoEgress, Loopback, Lan, Declared, AnyHost]

  /** Of two classes the intersection has the kind that stands first in the order. */
  lemma FirstKindWins(le: (string, string) -> bool, a: EgressClass, b: EgressClass, i: nat, k: nat)
    requires i <= k < |ORDER|
    requires (a.kind == ORDER[i] && b.kind == ORDER[k]) || (a.kind == ORDER[k] && b.kind == ORDER[i])
    ensures IntersectEgress(le, a, b).kind == ORDER[i]
  {
    assert forall j :: 0 <= j < |ORDER| ==> ORDER[j].Rank() == j;
  }
}
