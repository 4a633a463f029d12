/** The access policy pushed to Headscale: generated from the user slugs. */
module Acl {
  import opened Wrappers
  import opened Text
  import Sorting

  datatype AclRule = AclRule(action: string, src: seq<string>, dst: seq<string>)

  datatype AclPolicy = AclPolicy(tagOwners: map<string, seq<string>>, acls: seq<AclRule>)

  datatype Generated = Policy(policy: AclPolicy) | InvalidSlug(slug: string)

  const OWNER := "control-plane"

  function DeviceTag(slug: string): string {
    "tag:device-" + slug
  }

  function EnvTag(slug: string): string {
    "tag:env-" + slug
  }

  function RuleFor(slug: string): AclRule {
    AclRule("accept", [DeviceTag(slug)], [EnvTag(slug) + ":22"])
  }

  /* ---- The order of sort.Strings ---- */

  predicate StringLe(a: string, b: string) {
    || a == ""
    || (b != "" && (a[0] < b[0] || (a[0] == b[0] && StringLe(a[1..], b[1..]))))
  }

  const STRING_ORDER: (string, string) -> bool := (a, b) => StringLe(a, b)

  lemma {:induction false} StringLeTotal(a: string, b: string)
    ensures StringLe(a, b) || StringLe(b, a)
    ensures StringLe(a, b) && StringLe(b, a) ==> a == b
  {
    if a != "" && b != "" && a[0] == b[0] {
      StringLeTotal(a[1..], b[1..]);
      assert a == [a[0]] + a[1..] && b == [b[0]] + b[1..];
    }
  }

  lemma {:induction false} StringLeTransitive(a: string, b: string, c: string)
    requires StringLe(a, b) && StringLe(b, c)
    ensures StringLe(a, c)
  {
    if a != "" && a[0] == b[0] == c[0] {
      StringLeTransitive(a[1..], b[1..], c[1..]);
    }
  }

  lemma StringOrderIsTotal()
    ensures Sorting.TotalOrder(STRING_ORDER)
  {
    forall a, b ensures STRING_ORDER(a, b) || STRING_ORDER(b, a) {
      StringLeTotal(a, b);
    }
    forall a, b | STRING_ORDER(a, b) && STRING_ORDER(b, a) ensures a == b {
      StringLeTotal(a, b);
    }
    forall a, b, c | STRING_ORDER(a, b) && STRING_ORDER(b, c) ensures STRING_ORDER(a, c) {
      StringLeTransitive(a, b, c);
    }
  }

  /* ---- Generation ---- */

  predicate AllSlugs(slugs: seq<string>) {
    forall s :: s in slugs ==> IsSlug(s)
  }

  function Tags(slugs: set<string>): set<string> {
    (set s | s in slugs :: DeviceTag(s)) + (set s | s in slugs :: EnvTag(s))
  }

  function SlugSet(slugs: seq<string>): set<string> {
    set s | s in slugs
  }

  function Owners(slugs: set<string>): map<string, seq<string>> {
    map t | t in Tags(slugs) :: [OWNER]
  }

  function Rules(slugs: seq<string>): (rules: seq<AclRule>)
    ensures |rules| == |slugs|
    ensures forall i :: 0 <= i < |slugs| ==> rules[i] == RuleFor(slugs[i])
  {
    seq(|slugs|, i requires 0 <= i < |slugs| => RuleFor(slugs[i]))
  }

  function PolicyOf(slugs: seq<string>): AclPolicy {
    AclPolicy(Owners(SlugSet(slugs)), Rules(Sorting.Sort(slugs, STRING_ORDER)))
  }

  lemma SortKeepsElements(slugs: seq<string>)
    ensures forall s :: s in Sorting.Sort(slugs, STRING_ORDER) <==> s in slugs
  {
    var sorted := Sorting.Sort(slugs, STRING_ORDER);
    forall s ensures s in sorted <==> s in slugs {
      assert s in sorted <==> s in multiset(sorted);
      assert s in slugs <==> s in multiset(slugs);
    }
  }

  lemma OwnersExtend(slugs: set<string>, s: string)
    ensures Owners(slugs + {s}) == Owners(slugs)[DeviceTag(s) := [OWNER]][EnvTag(s) := [OWNER]]
  {
  }

  lemma OneMoreSlug(sorted: seq<string>, i: nat)
    requires i < |sorted|
    ensures Owners(SlugSet(sorted[..i + 1])) ==
      Owners(SlugSet(sorted[..i]))[DeviceTag(sorted[i]) := [OWNER]][EnvTag(sorted[i]) := [OWNER]]
    ensures Rules(sorted[..i + 1]) == Rules(sorted[..i]) + [RuleFor(sorted[i])]
  {
    OwnersExtend(SlugSet(sorted[..i]), sorted[i]);
    assert SlugSet(sorted[..i + 1]) == SlugSet(sorted[..i]) + {sorted[i]};
  }

  lemma AllOfSorted(slugs: seq<string>, sorted: seq<string>)
    requires sorted == Sorting.Sort(slugs, STRING_ORDER)
    ensures AclPolicy(Owners(SlugSet(sorted)), Rules(sorted)) == PolicyOf(slugs)
  {
    SortKeepsElements(slugs);
    assert SlugSet(sorted) == SlugSet(slugs);
  }

  /** The loop over the sorted slugs. */
  method Fill(sorted: seq<string>) returns (policy: AclPolicy)
    ensures policy == AclPolicy(Owners(SlugSet(sorted)), Rules(sorted))
  {
    var tagOwners: map<string, seq<string>> := map[];
    var acls: seq<AclRule> := [];
    for i := 0 to |sorted|
      invariant tagOwners == Owners(SlugSet(sorted[..i]))
      invariant acls == Rules(sorted[..i])
    {
      var s := sorted[i];
      tagOwners := tagOwners[DeviceTag(s) := [OWNER]];
      tagOwners := tagOwners[EnvTag(s) := [OWNER]];
      acls := acls + [RuleFor(s)];
      OneMoreSlug(sorted, i);
    }
    assert sorted[..|sorted|] == sorted;
    return AclPolicy(tagOwners, acls);
  }

  method GenerateACL(slugs: seq<string>) returns (r: Generated)
    ensures r.Policy? <==> AllSlugs(slugs)
    ensures r.Policy? ==> r.policy == PolicyOf(slugs)
    ensures r.InvalidSlug? ==>
      exists i :: 0 <= i < |slugs| && slugs[i] == r.slug && !IsSlug(r.slug) && AllSlugs(slugs[..i])
  {
    for i := 0 to |slugs|
      invariant forall j :: 0 <= j < i ==> IsSlug(slugs[j])
    {
      if !IsSlug(slugs[i]) {
        assert AllSlugs(slugs[..i]);
        return InvalidSlug(slugs[i]);
      }
    }
    var sorted := Sorting.Sort(slugs, STRING_ORDER);
    var policy := Fill(sorted);
    AllOfSorted(slugs, sorted);
    return Policy(policy);
  }

  /* ---- Canonical: equal policies for exactly the permutations ---- */

  lemma RulesInjective(a: seq<string>, b: seq<string>)
    requires Rules(a) == Rules(b)
    ensures a == b
  {
    assert |a| == |Rules(a)| == |b|;
    forall i | 0 <= i < |a| ensures a[i] == b[i] {
      assert RuleFor(a[i]) == Rules(a)[i] == Rules(b)[i] == RuleFor(b[i]);
      DeviceTagInjective(a[i], b[i]);
    }
  }

  lemma PrefixInjective(p: string, a: string, b: string)
    requires p + a == p + b
    ensures a == b
  {
    assert a == (p + a)[|p|..];
    assert b == (p + b)[|p|..];
  }

  lemma DeviceTagInjective(a: string, b: string)
    requires [DeviceTag(a)] == [DeviceTag(b)]
    ensures a == b
  {
    assert DeviceTag(a) == [DeviceTag(a)][0] == [DeviceTag(b)][0] == DeviceTag(b);
    PrefixInjective("tag:device-", a, b);
  }

  /** Two lists of slugs give the same policy exactly if one is a permutation of the other. */
  lemma SamePolicyIff(a: seq<string>, b: seq<string>)
    ensures PolicyOf(a) == PolicyOf(b) <==> multiset(a) == multiset(b)
  {
    if multiset(a) == multiset(b) {
      StringOrderIsTotal();
      Sorting.SortCanonical(a, b, STRING_ORDER);
      SortKeepsElements(a);
      SortKeepsElements(b);
      assert SlugSet(a) == SlugSet(b);
    }
    if PolicyOf(a) == PolicyOf(b) {
      RulesInjective(Sorting.Sort(a, STRING_ORDER), Sorting.Sort(b, STRING_ORDER));
    }
  }

  /* ---- Isolating ---- */

  /** Some rule accepts traffic from a source to a port of a destination. */
  predicate Reaches(p: AclPolicy, src: string, dst: string, port: string) {
    exists i :: 0 <= i < |p.acls| && p.acls[i].action == "accept" && src in p.acls[i].src &&
      dst + ":" + port in p.acls[i].dst
  }

  /** A destination is read from its last colon: what follows is the port. */
  lemma LastColon(a: string, p: string, b: string, q: string)
    requires ':' !in p && ':' !in q
    requires a + ":" + p == b + ":" + q
    ensures a == b && p == q
  {
    var s := a + ":" + p;
    assert s[|a|] == ':' && s[|b|] == ':';
    assert forall k :: |a| < k < |s| ==> s[k] == p[k - |a| - 1];
    assert forall k :: |b| < k < |s| ==> s[k] == q[k - |b| - 1];
    assert a == s[..|a|] && b == s[..|b|];
    assert p == s[|a| + 1..] && q == s[|b| + 1..];
  }

  lemma RuleReach(slug: string, src: string, dst: string, port: string)
    requires ':' !in port
    ensures src in RuleFor(slug).src && dst + ":" + port in RuleFor(slug).dst
      <==> src == DeviceTag(slug) && dst == EnvTag(slug) && port == "22"
  {
    assert EnvTag(slug) + ":22" == EnvTag(slug) + ":" + "22";
    if dst + ":" + port == EnvTag(slug) + ":" + "22" {
      LastColon(dst, port, EnvTag(slug), "22");
    }
  }

  /** The policy allows the devices of each listed user to reach port 22 of that user's envs, and nothing else:
      no other tag, port or pair of users. */
  lemma IsolatingIff(slugs: seq<string>, src: string, dst: string, port: string)
    requires ':' !in port
    ensures Reaches(PolicyOf(slugs), src, dst, port) <==>
      exists x :: x in slugs && src == "tag:device-" + x && dst == "tag:env-" + x && port == "22"
  {
    var p, sorted := PolicyOf(slugs), Sorting.Sort(slugs, STRING_ORDER);
    SortKeepsElements(slugs);
    forall i | 0 <= i < |sorted|
      ensures src in p.acls[i].src && dst + ":" + port in p.acls[i].dst
        <==> src == DeviceTag(sorted[i]) && dst == EnvTag(sorted[i]) && port == "22"
    {
      RuleReach(sorted[i], src, dst, port);
    }
    if x :| x in slugs && src == "tag:device-" + x && dst == "tag:env-" + x && port == "22" {
      var i :| 0 <= i < |sorted| && sorted[i] == x;
      assert p.acls[i].action == "accept";
    }
  }

  /** A device of x reaches an env of y exactly if x and y are the same listed user. */
  lemma UsersAreIsolated(slugs: seq<string>, x: string, y: string)
    ensures Reaches(PolicyOf(slugs), "tag:device-" + x, "tag:env-" + y, "22") <==> x == y && x in slugs
  {
    IsolatingIff(slugs, "tag:device-" + x, "tag:env-" + y, "22");
    forall z | z in slugs && "tag:device-" + x == "tag:device-" + z && "tag:env-" + y == "tag:env-" + z
      ensures x == z && y == z
    {
      PrefixInjective("tag:device-", x, z);
      PrefixInjective("tag:env-", y, z);
    }
  }

  lemma TagsDiffer(x: string, y: string)
    ensures "tag:env-" + x != "tag:device-" + y
  {
    assert ("tag:env-" + x)[4] == 'e' && ("tag:device-" + y)[4] == 'd';
  }

  /** Nothing reaches a device, and an env reaches nothing. */
  lemma DevicesAreOutOfReach(slugs: seq<string>, src: string, dst: string, y: string, port: string)
    requires ':' !in port
    ensures !Reaches(PolicyOf(slugs), src, "tag:device-" + y, port)
    ensures !Reaches(PolicyOf(slugs), "tag:env-" + y, dst, port)
  {
    IsolatingIff(slugs, src, "tag:device-" + y, port);
    IsolatingIff(slugs, "tag:env-" + y, dst, port);
    forall x ensures "tag:env-" + x != "tag:device-" + y && "tag:env-" + y != "tag:device-" + x {
      TagsDiffer(x, y);
      TagsDiffer(y, x);
    }
  }

  /** The owned tags are those of the listed users, all owned by the control plane. */
  lemma OwnersAre(slugs: seq<string>, tag: string)
    ensures tag in PolicyOf(slugs).tagOwners <==>
      exists s :: s in slugs && (tag == "tag:device-" + s || tag == "tag:env-" + s)
    ensures tag in PolicyOf(slugs).tagOwners ==> PolicyOf(slugs).tagOwners[tag] == ["control-plane"]
  {
    if s :| s in slugs && (tag == "tag:device-" + s || tag == "tag:env-" + s) {
      assert s in SlugSet(slugs);
    }
  }

  /** Lexicographic order: a prefix, or smaller at the first difference. */
  lemma {:induction false} StringLeIs(a: string, b: string)
    ensures StringLe(a, b) <==>
      a <= b || exists i :: 0 <= i < |a| && i < |b| && a[..i] == b[..i] && a[i] < b[i]
  {
    if a != "" && b != "" && a[0] == b[0] {
      StringLeIs(a[1..], b[1..]);
      if i :| 0 <= i < |a[1..]| && i < |b[1..]| && a[1..][..i] == b[1..][..i] && a[1..][i] < b[1..][i] {
        assert a[..i + 1] == [a[0]] + a[1..][..i] && b[..i + 1] == [b[0]] + b[1..][..i];
        assert a[i + 1] < b[i + 1];
      }
      if i :| 0 <= i < |a| && i < |b| && a[..i] == b[..i] && a[i] < b[i] {
        assert a[1..][..i - 1] == a[..i][1..] && b[1..][..i - 1] == b[..i][1..];
        assert a[1..][i - 1] < b[1..][i - 1];
      }
      assert a == [a[0]] + a[1..] && b == [b[0]] + b[1..];
    } else if a != "" && b != "" && a[0] < b[0] {
      assert a[..0] == b[..0];
    }
  }

  /** One rule for each listed slug, in ascending order of the slugs. */
  lemma RulesAre(slugs: seq<string>) returns (sorted: seq<string>)
    ensures multiset(sorted) == multiset(slugs)
    ensures forall i, j :: 0 <= i < j < |sorted| ==> StringLe(sorted[i], sorted[j])
    ensures var acls := PolicyOf(slugs).acls;
      |acls| == |sorted| && forall i :: 0 <= i < |sorted| ==>
        acls[i] == AclRule("accept", ["tag:device-" + sorted[i]], ["tag:env-" + sorted[i] + ":22"])
  {
    sorted := Sorting.Sort(slugs, STRING_ORDER);
    StringOrderIsTotal();
    Sorting.SortSorts(slugs, STRING_ORDER);
    forall i, j | 0 <= i < j < |sorted| ensures StringLe(sorted[i], sorted[j]) {
      assert STRING_ORDER(sorted[i], sorted[j]);
    }
  }

  /** The rule names the tag as a source, or some port of it as a destination. */
  ghost predicate Uses(rule: AclRule, tag: string) {
    tag in rule.src || exists port: string :: ':' !in port && tag + ":" + port in rule.dst
  }

  lemma RuleUses(slug: string, tag: string)
    ensures Uses(RuleFor(slug), tag) <==> tag == DeviceTag(slug) || tag == EnvTag(slug)
  {
    var rule := RuleFor(slug);
    assert EnvTag(slug) + ":22" == EnvTag(slug) + ":" + "22";
    if port: string :| ':' !in port && tag + ":" + port in rule.dst {
      LastColon(tag, port, EnvTag(slug), "22");
    }
    if tag == EnvTag(slug) {
      assert ':' !in "22" && tag + ":" + "22" in rule.dst;
    }
  }

  /** A tag has an owner, the control plane, exactly if some rule of the policy uses it. */
  lemma OwnedIffUsed(slugs: seq<string>, tag: string)
    ensures var p := PolicyOf(slugs);
      && (tag in p.tagOwners <==> exists i :: 0 <= i < |p.acls| && Uses(p.acls[i], tag))
      && (tag in p.tagOwners ==> p.tagOwners[tag] == [OWNER])
  {
    var p, sorted := PolicyOf(slugs), Sorting.Sort(slugs, STRING_ORDER);
    SortKeepsElements(slugs);
    forall i | 0 <= i < |sorted| ensures Uses(p.acls[i], tag) <==>
      tag == DeviceTag(sorted[i]) || tag == EnvTag(sorted[i]) {
      RuleUses(sorted[i], tag);
    }
    if tag in p.tagOwners {
      var s :| s in slugs && (tag == DeviceTag(s) || tag == EnvTag(s));
      var i :| 0 <= i < |sorted| && sorted[i] == s;
      assert Uses(p.acls[i], tag);
    }
  }
}
