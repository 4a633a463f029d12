/** Signups, and the access policy that follows the users table: rows, Headscale, the hook
    between them, and what every run of signups keeps. */
module PolicySync {
  import opened Wrappers
  import opened Text
  import opened Acl
  import Sorting

  type UserId = string

  datatype User = User(email: string, slug: string)

  type Users = map<UserId, User>

  /** Pushed while there are no users: an empty list of rules would be refused. */
  const PLACEHOLDER := AclPolicy(map["tag:placeholder" := [OWNER]],
                                 [AclRule("accept", ["tag:placeholder"], ["tag:placeholder:0"])])

  function Slugs(users: Users): set<string> {
    set id | id in users :: users[id].slug
  }

  /** The UNIQUE(slug) constraint. */
  predicate DistinctSlugs(users: Users) {
    forall i, j :: i in users && j in users && users[i].slug == users[j].slug ==> i == j
  }

  predicate ValidSlugs(users: Users) {
    forall id :: id in users ==> IsSlug(users[id].slug)
  }

  predicate UniqueSlugs(users: Users) {
    ValidSlugs(users) && DistinctSlugs(users)
  }

  lemma ListedAreValid(users: Users, list: seq<string>)
    requires SlugSet(list) == Slugs(users)
    ensures Acl.AllSlugs(list) <==> ValidSlugs(users)
  {
    forall s ensures s in list <==> s in Slugs(users) {
      assert s in list <==> s in SlugSet(list);
    }
    forall id | id in users ensures users[id].slug in Slugs(users) {
    }
  }

  lemma WithoutOne(users: Users, id: UserId)
    requires id in users
    ensures Slugs(users) == Slugs(users - {id}) + {users[id].slug}
    ensures DistinctSlugs(users) ==> DistinctSlugs(users - {id}) && users[id].slug !in Slugs(users - {id})
  {
    forall i | i in users && i != id ensures users[i].slug in Slugs(users - {id}) {
      assert (users - {id})[i] == users[i];
    }
  }

  lemma OneMore(slugs: seq<string>, s: string)
    ensures SlugSet(slugs + [s]) == SlugSet(slugs) + {s}
    ensures Sorting.NoDuplicates(slugs) && s !in SlugSet(slugs) ==> Sorting.NoDuplicates(slugs + [s])
  {
  }

  function Expected(slugs: seq<string>): AclPolicy {
    if slugs == [] then PLACEHOLDER else PolicyOf(slugs)
  }

  /** The policy is the one for exactly the slugs in a set. */
  ghost predicate IsPolicyFor(p: Option<AclPolicy>, slugs: set<string>) {
    exists list :: Sorting.NoDuplicates(list) && SlugSet(list) == slugs && p == Some(Expected(list))
  }

  ghost predicate InSync(users: Users, pushed: Option<AclPolicy>) {
    IsPolicyFor(pushed, Slugs(users))
  }

  /* ---- The services ---- */

  /** strings.ToLower as far as a slug can tell: every other rune above ASCII stays above ASCII. */
  function LowerRune(c: char): char {
    if 'A' <= c <= 'Z' then c - 'A' + 'a'
    else if c == '\U{212A}' then 'k'
    else if c == '\U{0130}' then 'i'
    else c
  }

  function Lower(s: string): string {
    seq(|s|, i requires 0 <= i < |s| => LowerRune(s[i]))
  }

  const MIN_PASSWORD: nat := 12

  datatype SignupError = EmailTaken | SlugTaken | InvalidEmail | BadSlug | PasswordTooShort | Internal

  datatype SignupRequest = SignupRequest(address: Option<string>, slug: string, passwordLength: nat)

  datatype SignupResult = Inserted(user: User) | Refused(error: SignupError)

  datatype DeleteResult = Deleted | NotFound | DeleteFailed

  /** Which of the calls of one request or start-up fail. */
  datatype Faults = Faults(hash: bool, insert: bool, createUser: bool, listSlugs: bool, setPolicy: bool, delete: bool,
                           session: bool)

  predicate EmailKnown(users: Users, email: string) {
    exists id :: id in users && users[id].email == email
  }

  predicate SlugKnown(users: Users, slug: string) {
    exists id :: id in users && users[id].slug == slug
  }

  class UserService {
    var rows: Users

    constructor ()
      ensures rows == map[]
    {
      rows := map[];
    }

    /** The address is parsed already, None when it is no address; the database draws the id. */
    method Signup(req: SignupRequest, id: UserId, faults: Faults) returns (r: SignupResult)
      requires id !in rows
      modifies this
      ensures var slug := Lower(TrimSpace(req.slug));
        r == if req.address.None? then Refused(InvalidEmail)
             else if !IsSlug(slug) then Refused(BadSlug)
             else if req.passwordLength < 12 then Refused(PasswordTooShort)
             else if faults.hash || faults.insert then Refused(Internal)
             else if EmailKnown(old(rows), req.address.value) then Refused(EmailTaken)
             else if SlugKnown(old(rows), slug) then Refused(SlugTaken)
             else Inserted(User(req.address.value, slug))
      ensures rows == if r.Inserted? then old(rows)[id := r.user] else old(rows)
      ensures old(UniqueSlugs(rows)) ==> UniqueSlugs(rows)
    {
      if req.address.None? {
        return Refused(InvalidEmail);
      }
      var slug := Lower(TrimSpace(req.slug));
      if !IsSlug(slug) {
        return Refused(BadSlug);
      }
      if req.passwordLength < MIN_PASSWORD {
        return Refused(PasswordTooShort);
      }
      if faults.hash {
        return Refused(Internal);
      }
      if faults.insert {
        return Refused(Internal);
      }
      if EmailKnown(rows, req.address.value) {
        return Refused(EmailTaken);
      }
      if SlugKnown(rows, slug) {
        return Refused(SlugTaken);
      }
      var user := User(req.address.value, slug);
      rows := rows[id := user];
      return Inserted(user);
    }

    method HardDelete(id: UserId, fails: bool) returns (r: DeleteResult)
      modifies this
      ensures r == if fails then DeleteFailed else if id in old(rows) then Deleted else NotFound
      ensures rows == if fails then old(rows) else old(rows) - {id}
    {
      if fails {
        return DeleteFailed;
      }
      if id !in rows {
        return NotFound;
      }
      rows := rows - {id};
      return Deleted;
    }
  }

  datatype CreateUserResult = Created | AlreadyExists | CreateFailed

  /** Headscale as the control plane drives it. A failed call has no effect. */
  class Headscale {
    var users: set<string>
    var pushed: Option<AclPolicy>

    constructor ()
      ensures users == {} && pushed == None
    {
      users := {};
      pushed := None;
    }

    method CreateUser(name: string, fails: bool) returns (r: CreateUserResult)
      modifies this`users
      ensures r == if fails then CreateFailed else if name in old(users) then AlreadyExists else Created
      ensures users == if fails then old(users) else old(users) + {name}
    {
      if fails {
        return CreateFailed;
      }
      if name in users {
        return AlreadyExists;
      }
      users := users + {name};
      return Created;
    }

    method SetPolicy(policy: AclPolicy, fails: bool) returns (ok: bool)
      modifies this`pushed
      ensures ok == !fails
      ensures pushed == if fails then old(pushed) else Some(policy)
    {
      if !fails {
        pushed := Some(policy);
      }
      ok := !fails;
    }
  }

  /** Picks up the slugs in whatever order the database lists them. */
  class Policy {
    const pool: UserService
    const hs: Headscale

    constructor (pool: UserService, hs: Headscale)
      ensures this.pool == pool && this.hs == hs
    {
      this.pool := pool;
      this.hs := hs;
    }

    method AllSlugs(fails: bool) returns (r: Option<seq<string>>)
      ensures r.None? <==> fails
      ensures DistinctSlugs(pool.rows) && r.Some? ==> Sorting.NoDuplicates(r.value)
      ensures r.Some? ==> SlugSet(r.value) == Slugs(pool.rows)
    {
      if fails {
        return None;
      }
      var slugs: seq<string> := [];
      var todo := pool.rows;
      while todo != map[]
        invariant SlugSet(slugs) + Slugs(todo) == Slugs(pool.rows)
        invariant DistinctSlugs(pool.rows) ==>
          DistinctSlugs(todo) && Sorting.NoDuplicates(slugs) && SlugSet(slugs) !! Slugs(todo)
        decreases |todo|
      {
        var id :| id in todo;
        WithoutOne(todo, id);
        OneMore(slugs, todo[id].slug);
        slugs := slugs + [todo[id].slug];
        todo := todo - {id};
      }
      return Some(slugs);
    }

    method Refresh(faults: Faults) returns (ok: bool)
      requires DistinctSlugs(pool.rows)
      modifies hs`pushed
      ensures ok <==> !faults.listSlugs && !faults.setPolicy && ValidSlugs(pool.rows)
      ensures if ok then InSync(pool.rows, hs.pushed) else hs.pushed == old(hs.pushed)
    {
      var slugs := AllSlugs(faults.listSlugs);
      if slugs.None? {
        return false;
      }
      ListedAreValid(pool.rows, slugs.value);
      var policy := PLACEHOLDER;
      if |slugs.value| > 0 {
        var generated := GenerateACL(slugs.value);
        if generated.InvalidSlug? {
          return false;
        }
        policy := generated.policy;
      }
      assert policy == Expected(slugs.value);
      ok := hs.SetPolicy(policy, faults.setPolicy);
    }

    method Initialize(faults: Faults) returns (ok: bool)
      requires UniqueSlugs(pool.rows)
      modifies hs
      ensures ok <==> !faults.createUser && !faults.listSlugs && !faults.setPolicy
      ensures if ok then InSync(pool.rows, hs.pushed) else hs.pushed == old(hs.pushed)
      ensures hs.users == if faults.createUser then old(hs.users) else old(hs.users) + {"control-plane"}
    {
      var created := hs.CreateUser(OWNER, faults.createUser);
      if created.CreateFailed? {
        return false;
      }
      ok := Refresh(faults);
    }

    method OnUserCreated(slug: string, faults: Faults) returns (ok: bool)
      requires UniqueSlugs(pool.rows)
      modifies hs
      ensures ok <==> !faults.createUser && !faults.listSlugs && !faults.setPolicy
      ensures if ok then InSync(pool.rows, hs.pushed) else hs.pushed == old(hs.pushed)
      ensures hs.users == if faults.createUser then old(hs.users) else old(hs.users) + {slug}
    {
      var created := hs.CreateUser(slug, faults.createUser);
      if created.CreateFailed? {
        return false;
      }
      ok := Refresh(faults);
    }
  }

  /* ---- Signup with its compensation ---- */

  /** The users table, the policy Headscale has, and the users it has. */
  datatype AccessState = AccessState(users: Users, pushed: Option<AclPolicy>, known: set<string>)

  /** What one request or start-up does: `Stranded` is a signup whose hook and whose rollback both failed. */
  datatype SignupEvent =
    | Initialized
    | Rejected
    | Registered(id: UserId, user: User)
    | RolledBack
    | Stranded(id: UserId, user: User)

  ghost predicate AccessStep(w: AccessState, e: SignupEvent, w': AccessState) {
    && w.known <= w'.known
    && match e
       case Initialized => w'.users == w.users && InSync(w'.users, w'.pushed) && "control-plane" in w'.known
       case Rejected => w' == w
       case RolledBack => w'.users == w.users && w'.pushed == w.pushed
       case Registered(id, user) =>
         && id !in w.users && w'.users == w.users[id := user] && UniqueSlugs(w'.users)
         && InSync(w'.users, w'.pushed) && user.slug in w'.known
       case Stranded(id, user) =>
         id !in w.users && w'.users == w.users[id := user] && UniqueSlugs(w'.users) && w'.pushed == w.pushed
  }

  /** An answer to the browser; the text of an error. */
  datatype Response = Response(status: int, error: string)

  class Handlers {
    const svc: UserService
    const policy: Policy

    constructor (svc: UserService, policy: Policy)
      requires policy.pool == svc
      ensures this.svc == svc && this.policy == policy
    {
      this.svc := svc;
      this.policy := policy;
    }

    ghost function State(): AccessState
      reads svc, policy, policy.hs
    {
      AccessState(svc.rows, policy.hs.pushed, policy.hs.users)
    }

    /** Inserts the user, calls the hook, and takes the row back if the hook fails. */
    method Signup(req: SignupRequest, id: UserId, faults: Faults) returns (response: Response, ghost event: SignupEvent)
      requires policy.pool == svc && UniqueSlugs(svc.rows) && id !in svc.rows
      modifies svc, policy.hs
      ensures UniqueSlugs(svc.rows)
      ensures AccessStep(old(State()), event, State())
      ensures var slug := Lower(TrimSpace(req.slug));
        response ==
          if req.address.None? then Response(400, "invalid email")
          else if !IsSlug(slug) then Response(400, "invalid slug")
          else if req.passwordLength < 12 then Response(400, "password too short")
          else if faults.hash || faults.insert then Response(500, "internal error")
          else if EmailKnown(old(svc.rows), req.address.value) then Response(409, "email taken")
          else if SlugKnown(old(svc.rows), slug) then Response(409, "slug taken")
          else if faults.createUser || faults.listSlugs || faults.setPolicy then Response(500, "registration failed")
          else if faults.session then Response(500, "session encode")
          else Response(201, "")
      ensures event ==
        if response.error == "session encode" || response.status == 201
        then Registered(id, User(req.address.value, Lower(TrimSpace(req.slug))))
        else if response.error != "registration failed" then Rejected
        else if faults.delete then Stranded(id, User(req.address.value, Lower(TrimSpace(req.slug))))
        else RolledBack
      ensures policy.hs.users == old(policy.hs.users) + if Hooked(event) && !faults.createUser
                                                        then {Lower(TrimSpace(req.slug))} else {}
    {
      var r := svc.Signup(req, id, faults);
      if r.Refused? {
        response := match r.error
          case EmailTaken => Response(409, "email taken")
          case SlugTaken => Response(409, "slug taken")
          case InvalidEmail => Response(400, "invalid email")
          case BadSlug => Response(400, "invalid slug")
          case PasswordTooShort => Response(400, "password too short")
          case Internal => Response(500, "internal error");
        event := Rejected;
        return;
      }
      var ok := policy.OnUserCreated(r.user.slug, faults);
      if !ok {
        var deleted := svc.HardDelete(id, faults.delete);
        if deleted.Deleted? {
          assert svc.rows == old(svc.rows);
          event := RolledBack;
        } else {
          event := Stranded(id, r.user);
        }
        response := Response(500, "registration failed");
        return;
      }
      event := Registered(id, r.user);
      response := if faults.session then Response(500, "session encode") else Response(201, "");
    }
  }

  /** The request got as far as the hook. */
  predicate Hooked(e: SignupEvent) {
    e.Registered? || e.RolledBack? || e.Stranded?
  }

  /* ---- Which policy is pushed ---- */

  lemma NoDuplicatesMultiset(s: seq<string>)
    requires Sorting.NoDuplicates(s)
    ensures multiset(s) == multiset(SlugSet(s))
  {
    forall x ensures multiset(s)[x] == multiset(SlugSet(s))[x] {
      Sorting.CountOnce(s, x);
    }
  }

  lemma NoPlaceholderDevice(slug: string)
    ensures DeviceTag(slug) != "tag:placeholder"
  {
    assert DeviceTag(slug)[4] == 'd' && "tag:placeholder"[4] == 'p';
  }

  lemma PlaceholderIsNoPolicy(slugs: seq<string>)
    requires slugs != []
    ensures PolicyOf(slugs) != PLACEHOLDER
  {
    assert slugs[0] in SlugSet(slugs);
    assert DeviceTag(slugs[0]) in PolicyOf(slugs).tagOwners;
    NoPlaceholderDevice(slugs[0]);
  }

  lemma SameElements(a: seq<string>, b: seq<string>)
    requires multiset(a) == multiset(b)
    ensures SlugSet(a) == SlugSet(b)
  {
    assert forall x :: x in a <==> x in multiset(a);
    assert forall x :: x in b <==> x in multiset(b);
  }

  /** A policy is the right one for at most one set of slugs. */
  lemma PolicyForOneSet(p: Option<AclPolicy>, a: set<string>, b: set<string>)
    requires IsPolicyFor(p, a) && IsPolicyFor(p, b)
    ensures a == b
  {
    var la :| Sorting.NoDuplicates(la) && SlugSet(la) == a && p == Some(Expected(la));
    var lb :| Sorting.NoDuplicates(lb) && SlugSet(lb) == b && p == Some(Expected(lb));
    if la != [] && lb != [] {
      SamePolicyIff(la, lb);
      SameElements(la, lb);
    } else if la != [] {
      PlaceholderIsNoPolicy(la);
    } else if lb != [] {
      PlaceholderIsNoPolicy(lb);
    }
  }

  /** In whatever order the slugs are listed, the policy for them is the same. */
  lemma AnyListing(users: Users, pushed: Option<AclPolicy>, list: seq<string>)
    requires Sorting.NoDuplicates(list) && SlugSet(list) == Slugs(users)
    ensures InSync(users, pushed) <==> pushed == Some(Expected(list))
  {
    if InSync(users, pushed) {
      var other :| Sorting.NoDuplicates(other) && SlugSet(other) == Slugs(users) && pushed == Some(Expected(other));
      NoDuplicatesMultiset(list);
      NoDuplicatesMultiset(other);
      if list == [] || other == [] {
        assert |multiset(list)| == |multiset(other)|;
      } else {
        SamePolicyIff(list, other);
      }
    }
  }

  /** While the policy is in sync, a device of x reaches an env of y exactly if x and y are the same registered user. */
  lemma InSyncIsolates(users: Users, pushed: Option<AclPolicy>, x: string, y: string)
    requires InSync(users, pushed)
    ensures Reaches(pushed.value, "tag:device-" + x, "tag:env-" + y, "22") <==> x == y && x in Slugs(users)
  {
    var list :| Sorting.NoDuplicates(list) && SlugSet(list) == Slugs(users) && pushed == Some(Expected(list));
    if list == [] {
      NoPlaceholderDevice(x);
      assert DeviceTag(x) !in PLACEHOLDER.acls[0].src;
      assert Slugs(users) == {};
    } else {
      UsersAreIsolated(list, x, y);
      assert x in list <==> x in SlugSet(list);
    }
  }

  /* ---- Runs ---- */

  ghost predicate IsAccessRun(ws: seq<AccessState>, es: seq<SignupEvent>) {
    && |ws| == |es| + 1
    && forall i :: 0 <= i < |es| ==> AccessStep(ws[i], es[i], ws[i + 1])
  }

  /** No signup was stranded since the last push. */
  predicate FreshPush(es: seq<SignupEvent>) {
    && es != []
    && (var e := es[|es| - 1];
        e.Initialized? || e.Registered? || (!e.Stranded? && FreshPush(es[..|es| - 1])))
  }

  lemma NewSlug(users: Users, id: UserId, user: User)
    requires id !in users && UniqueSlugs(users[id := user])
    ensures Slugs(users[id := user]) == Slugs(users) + {user.slug} && user.slug !in Slugs(users)
  {
    var after := users[id := user];
    assert after[id].slug == user.slug;
    forall i | i in users ensures users[i].slug in Slugs(after) && users[i].slug != user.slug {
      assert after[i] == users[i];
    }
  }

  /** The pushed policy is the one for some of the users: all of them exactly while no signup is stranded. */
  lemma {:induction false} PushedForSome(ws: seq<AccessState>, es: seq<SignupEvent>) returns (known: set<string>)
    requires IsAccessRun(ws, es) && es != [] && es[0].Initialized?
    ensures var w := ws[|es|];
      IsPolicyFor(w.pushed, known) && known <= Slugs(w.users) && (known == Slugs(w.users) <==> FreshPush(es))
    decreases |es|
  {
    var n := |es| - 1;
    var e, w, w' := es[n], ws[n], ws[n + 1];
    assert AccessStep(w, e, w');
    if e.Initialized? || e.Registered? {
      known := Slugs(w'.users);
    } else {
      assert IsAccessRun(ws[..n + 1], es[..n]);
      known := PushedForSome(ws[..n + 1], es[..n]);
      if e.Stranded? {
        NewSlug(w.users, e.id, e.user);
      }
    }
  }

  /** In every run of signups after a start-up, whatever fails, the pushed policy is the one for exactly the
      slugs in the users table if and only if no signup was stranded since the last successful push. */
  lemma InSyncIff(ws: seq<AccessState>, es: seq<SignupEvent>)
    requires IsAccessRun(ws, es) && es != [] && es[0].Initialized?
    ensures InSync(ws[|es|].users, ws[|es|].pushed) <==> FreshPush(es)
  {
    var known := PushedForSome(ws, es);
    var w := ws[|es|];
    if InSync(w.users, w.pushed) {
      PolicyForOneSet(w.pushed, known, Slugs(w.users));
    }
  }

  /** Headscale knows every user that registered in a run, and the owner of the tags. */
  lemma {:induction false} RegisteredAreKnown(ws: seq<AccessState>, es: seq<SignupEvent>, k: nat)
    requires IsAccessRun(ws, es) && k < |es|
    ensures es[k].Registered? ==> es[k].user.slug in ws[|es|].known
    ensures es[k].Initialized? ==> "control-plane" in ws[|es|].known
    decreases |es|
  {
    var n := |es| - 1;
    assert AccessStep(ws[n], es[n], ws[n + 1]);
    if k < n {
      assert IsAccessRun(ws[..n + 1], es[..n]);
      RegisteredAreKnown(ws[..n + 1], es[..n], k);
    }
  }

  /** As long as every rollback succeeds the policy is in sync after every request. */
  lemma {:induction false} RollbacksKeepSync(ws: seq<AccessState>, es: seq<SignupEvent>)
    requires IsAccessRun(ws, es) && es != [] && es[0].Initialized?
    requires forall i :: 0 <= i < |es| ==> !es[i].Stranded?
    ensures InSync(ws[|es|].users, ws[|es|].pushed)
  {
    NeverStranded(es);
    InSyncIff(ws, es);
  }

  lemma {:induction false} NeverStranded(es: seq<SignupEvent>)
    requires es != [] && es[0].Initialized?
    requires forall i :: 0 <= i < |es| ==> !es[i].Stranded?
    ensures FreshPush(es)
  {
    if |es| > 1 {
      NeverStranded(es[..|es| - 1]);
    }
  }

  /* ---- Fixed texts ---- */

  /** Without users the pushed policy only lets a tag nobody has reach itself on no port. */
  lemma PlaceholderIs()
    ensures Expected([]) == AclPolicy(map["tag:placeholder" := ["control-plane"]],
                                      [AclRule("accept", ["tag:placeholder"], ["tag:placeholder:0"])])
  {
  }

  /** Capital letters become small ones; of the other characters only the Kelvin sign and the dotted capital I
      become letters of a slug. */
  lemma LowerRuneIs(c: char, i: nat)
    requires i < 26
    ensures LowerRune("ABCDEFGHIJKLMNOPQRSTUVWXYZ"[i]) == "abcdefghijklmnopqrstuvwxyz"[i]
    ensures LowerRune('\U{212A}') == 'k' && LowerRune('\U{0130}') == 'i'
    ensures !('A' <= c <= 'Z') && c != '\U{212A}' && c != '\U{0130}' ==> LowerRune(c) == c
  {
  }

  lemma LowerIs(s: string)
    ensures |Lower(s)| == |s| && forall i :: 0 <= i < |s| ==> Lower(s)[i] == LowerRune(s[i])
  {
  }
}
