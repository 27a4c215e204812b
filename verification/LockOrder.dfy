/**
 The admission barrier of backend/internal/authority/guard.go on PostgreSQL: every
 entry point locks rows in one order, so transactions built from them never deadlock.
 */
module LockOrder {
  import opened Wrappers

  // A UUID; its text order is the order of these numbers, and 0 is uuid.Nil.
  type Id = nat

  datatype Resource =
    | User(id: Id) | Org(id: Id) | Project(id: Id)
    | MemberState(org: Id, user: Id) | Member(org: Id, user: Id) | Session(id: Id)

  // FOR UPDATE or FOR SHARE.
  datatype Request = Request(res: Resource, exclusive: bool)

  function Share(res: Resource): Request { Request(res, false) }

  // ---------------------------------------------------------------- the one order

  function Key(r: Resource): (nat, nat, nat, nat) {
    match r
    case User(id) => (0, id, 0, 0)
    case Org(id) => (1, id, 0, 0)
    case Project(id) => (2, id, 0, 0)
    case MemberState(org, user) => (3, org, user, 0)
    case Member(org, user) => (3, org, user, 1)
    case Session(id) => (4, id, 0, 0)
  }

  predicate Lower(a: Resource, b: Resource) {
    var (x, y) := (Key(a), Key(b));
    || x.0 < y.0 || (x.0 == y.0 && (|| x.1 < y.1 || (x.1 == y.1 && (|| x.2 < y.2 || (x.2 == y.2 && x.3 < y.3)))))
  }

  lemma LowerIsAStrictTotalOrder(a: Resource, b: Resource, c: Resource)
    ensures !Lower(a, a)
    ensures Lower(a, b) && Lower(b, c) ==> Lower(a, c)
    ensures a != b ==> Lower(a, b) != Lower(b, a)
  {
  }

  // Users, organizations, projects, memberships by organization and user with the state
  // first, sessions.
  lemma LowerInWords(a: Resource, b: Resource)
    ensures Lower(a, b) <==>
            match a
            case User(i) => !b.User? || i < b.id
            case Org(i) => if b.Org? then i < b.id else !b.User?
            case Project(i) => if b.Project? then i < b.id else b.MemberState? || b.Member? || b.Session?
            case MemberState(o, u) =>
              || b.Session? || (b.MemberState? && (o < b.org || (o == b.org && u < b.user)))
              || (b.Member? && (o < b.org || (o == b.org && u <= b.user)))
            case Member(o, u) =>
              b.Session? || ((b.MemberState? || b.Member?) && (o < b.org || (o == b.org && u < b.user)))
            case Session(i) => b.Session? && i < b.id
  {}

  // Every request is above all locks taken before it, or repeats one of them in the same
  // mode; in particular no lock is ever upgraded.
  ghost predicate Ordered(plan: seq<Request>) {
    forall j :: 0 <= j < |plan| ==> ClimbsOrRepeats(plan, j)
  }

  ghost predicate ClimbsOrRepeats(plan: seq<Request>, j: nat)
    requires j < |plan|
  {
    plan[j] in plan[..j] || forall i :: 0 <= i < j ==> Lower(plan[i].res, plan[j].res)
  }

  lemma OrderedConcat(a: seq<Request>, b: seq<Request>)
    requires Ordered(a) && Ordered(b)
    requires forall x, y :: x in a && y in b ==> Lower(x.res, y.res) || y in a
    ensures Ordered(a + b)
  {
    var c := a + b;
    forall j | 0 <= j < |c| ensures ClimbsOrRepeats(c, j) {
      if j < |a| {
        assert ClimbsOrRepeats(a, j) && c[..j] == a[..j];
      } else {
        var k := j - |a|;
        assert ClimbsOrRepeats(b, k) && c[j] == b[k] && b[k] in b && c[..j] == a + b[..k];
        if c[j] !in c[..j] {
          forall i | 0 <= i < j ensures Lower(c[i].res, c[j].res) {
            if i < |a| { assert c[i] == a[i] && a[i] in a; } else { assert c[i] == b[i - |a|]; }
          }
        }
      }
    }
  }

  // ---------------------------------------------------------------- sorting

  ghost predicate Ascending(s: seq<Id>) { forall i, j :: 0 <= i < j < |s| ==> s[i] <= s[j] }

  function Insert(x: Id, s: seq<Id>): seq<Id> {
    if s == [] || x <= s[0] then [x] + s else [s[0]] + Insert(x, s[1..])
  }

  // sort.Slice by text.
  function Sort(s: seq<Id>): seq<Id> { if s == [] then [] else Insert(s[0], Sort(s[1..])) }

  lemma {:induction false} InsertAscends(x: Id, s: seq<Id>)
    requires Ascending(s)
    ensures Ascending(Insert(x, s))
  {
    if s != [] && x > s[0] {
      var tail := Insert(x, s[1..]);
      InsertAscends(x, s[1..]);
      forall k | 0 <= k < |tail| ensures s[0] <= tail[k] {
        InsertHolds(x, s[1..], tail[k]);
      }
    }
  }

  lemma {:induction false} InsertPermutes(x: Id, s: seq<Id>)
    ensures multiset(Insert(x, s)) == multiset(s) + multiset{x}
  {
    if s != [] && x > s[0] {
      InsertPermutes(x, s[1..]);
      assert s == [s[0]] + s[1..];
    }
  }

  lemma {:induction false} InsertHolds(x: Id, s: seq<Id>, y: Id)
    ensures y in Insert(x, s) <==> y == x || y in s
  {
    if s != [] && x > s[0] {
      InsertHolds(x, s[1..], y);
      assert s == [s[0]] + s[1..];
    }
  }

  lemma {:induction false} SortSorts(s: seq<Id>)
    ensures Ascending(Sort(s)) && multiset(Sort(s)) == multiset(s)
    ensures forall x :: x in Sort(s) <==> x in s
  {
    if s != [] {
      SortSorts(s[1..]);
      InsertAscends(s[0], Sort(s[1..]));
      InsertPermutes(s[0], Sort(s[1..]));
      assert s == [s[0]] + s[1..];
    }
    SamePermutation(Sort(s), s);
  }

  lemma SamePermutation(a: seq<Id>, b: seq<Id>)
    requires multiset(a) == multiset(b)
    ensures forall x :: x in a <==> x in b
  {
    forall x ensures x in a <==> x in b {
      assert x in a <==> x in multiset(a);
    }
  }

  predicate IsMin(s: set<Id>, m: Id) { m in s && forall x :: x in s ==> m <= x }

  lemma {:induction false} MinExists(s: set<Id>)
    requires s != {}
    ensures exists m :: IsMin(s, m)
    decreases s
  {
    var a: Id :| a in s;
    if s == {a} {
      assert IsMin(s, a);
    } else {
      MinExists(s - {a});
      var m: Id :| IsMin(s - {a}, m);
      LeastOfTwo(s, a, m);
    }
  }

  lemma LeastOfTwo(s: set<Id>, a: Id, m: Id)
    requires a in s && IsMin(s - {a}, m)
    ensures IsMin(s, if a <= m then a else m)
  {
    forall x | x in s ensures (if a <= m then a else m) <= x {
      if x != a { assert x in s - {a}; }
    }
  }

  // The keys of a Go map, sorted.
  function Keys(s: set<Id>): (q: seq<Id>)
    decreases s
  {
    if s == {} then []
    else
      MinExists(s);
      var m: Id :| IsMin(s, m);
      [m] + Keys(s - {m})
  }

  ghost predicate StrictlyUp(q: seq<Id>) { forall i, j :: 0 <= i < j < |q| ==> q[i] < q[j] }

  lemma {:induction false} KeysAreTheSet(s: set<Id>)
    ensures forall x :: x in Keys(s) <==> x in s
    ensures StrictlyUp(Keys(s))
    decreases s
  {
    if s != {} {
      var q := Keys(s);
      KeysAreTheSet(s - {q[0]});
      assert q == [q[0]] + Keys(s - {q[0]});
      assert q[0] in s;
      forall x ensures x in q <==> x in s { assert x in q <==> x == q[0] || x in Keys(s - {q[0]}); }
      forall i, j | 0 <= i < j < |q| ensures q[i] < q[j] {
        assert q[j] == Keys(s - {q[0]})[j - 1] && q[j] in s - {q[0]};
        if i > 0 { assert q[i] == Keys(s - {q[0]})[i - 1]; }
      }
    }
  }

  // ---------------------------------------------------------------- plans

  function Elements(ids: seq<Id>): set<Id> { set x | x in ids }

  function UserLocks(ids: seq<Id>, exclusive: bool): seq<Request> {
    seq(|ids|, i requires 0 <= i < |ids| => Request(User(ids[i]), exclusive))
  }

  function OrgLocks(ids: seq<Id>): seq<Request> {
    seq(|ids|, i requires 0 <= i < |ids| => Share(Org(ids[i])))
  }

  function MemberLock(org: Id, user: Id): seq<Request> { [Share(MemberState(org, user)), Share(Member(org, user))] }

  function MemberLocks(org: Id, users: seq<Id>): seq<Request> {
    if users == [] then [] else MemberLocks(org, users[..|users| - 1]) + MemberLock(org, users[|users| - 1])
  }

  // The members locked in one organization: the actor, and the extra subjects in the project's own.
  function MembersOf(org: Id, home: Option<Id>, actor: Id, extra: seq<Id>): seq<Id> {
    Sort(if home == Some(org) then [actor] + extra else [actor])
  }

  function AllMemberLocks(orgs: seq<Id>, home: Option<Id>, actor: Id, extra: seq<Id>): seq<Request> {
    if orgs == [] then []
    else
      var last := orgs[|orgs| - 1];
      AllMemberLocks(orgs[..|orgs| - 1], home, actor, extra) + MemberLocks(last, MembersOf(last, home, actor, extra))
  }

  function SessionLock(session: Id): seq<Request> { if session == 0 then [] else [Share(Session(session))] }

  function SubjectPlan(ids: seq<Id>, exclusive: bool): seq<Request> { UserLocks(Keys(Elements(ids)), exclusive) }

  function ActivePlan(user: Id, session: Id): seq<Request> { SubjectPlan([user], false) + [Share(Session(session))] }

  function OrgPlan(org: Id, user: Id, session: Id): seq<Request> {
    [Share(Org(org))] + MemberLock(org, user) + [Share(Session(session))]
  }

  function OrgSet(orgs: seq<Id>, home: Option<Id>): seq<Id> {
    Keys(Elements(orgs) + (if home.Some? then {home.value} else {}))
  }

  function ProjectPlan(
      actor: Id, owner: Id, home: Option<Id>, extra: seq<Id>, orgs: seq<Id>, project: Id, exclusive: bool, session: Id)
    : seq<Request>
  {
    SubjectPlan([actor, owner] + extra, false) + OrgLocks(OrgSet(orgs, home)) + [Request(Project(project), exclusive)]
    + AllMemberLocks(OrgSet(orgs, home), home, actor, extra) + SessionLock(session)
  }

  function StateLocks(org: Id, users: seq<Id>): seq<Request> {
    seq(|users|, i requires 0 <= i < |users| => Share(MemberState(org, users[i])))
  }

  function HomeLock(home: Option<Id>): seq<Request> { if home.Some? then [Share(Org(home.value))] else [] }

  // Maintenance locks the member states that exist, of the users `present`.
  function MaintenancePlan(owner: Id, home: Option<Id>, extra: seq<Id>, project: Id, present: seq<Id>): seq<Request> {
    SubjectPlan([owner] + extra, false) + HomeLock(home) + [Request(Project(project), true)]
    + (if home.Some? then StateLocks(home.value, present) else [])
  }

  // ---------------------------------------------------------------- what a plan holds

  lemma SubjectPlanHolds(ids: seq<Id>, exclusive: bool, r: Request)
    ensures r in SubjectPlan(ids, exclusive) <==> r.res.User? && r.res.id in ids && r.exclusive == exclusive
  {
    var users := Keys(Elements(ids));
    KeysAreTheSet(Elements(ids));
    assert forall id :: id in users <==> id in ids by { assert forall id :: id in Elements(ids) <==> id in ids; }
    if r.res.User? && r.res.id in ids && r.exclusive == exclusive {
      assert r.res.id in users;
      var i :| 0 <= i < |users| && users[i] == r.res.id;
      assert SubjectPlan(ids, exclusive)[i] == r;
    }
  }

  lemma OrgLocksHold(ids: seq<Id>, r: Request)
    ensures r in OrgLocks(ids) <==> r.res.Org? && r.res.id in ids && !r.exclusive
  {
    if r.res.Org? && r.res.id in ids && !r.exclusive {
      var i :| 0 <= i < |ids| && ids[i] == r.res.id;
      assert OrgLocks(ids)[i] == r;
    }
  }

  lemma {:induction false} MemberLocksHold(org: Id, users: seq<Id>, r: Request)
    ensures r in MemberLocks(org, users) <==>
            (r.res.MemberState? || r.res.Member?) && r.res.org == org && r.res.user in users && !r.exclusive
    decreases |users|
  {
    if users != [] {
      var n := |users| - 1;
      MemberLocksHold(org, users[..n], r);
      assert users == users[..n] + [users[n]];
    }
  }

  lemma {:induction false} AllMemberLocksHold(
      orgs: seq<Id>, home: Option<Id>, actor: Id, extra: seq<Id>, r: Request)
    ensures r in AllMemberLocks(orgs, home, actor, extra) <==>
            && (r.res.MemberState? || r.res.Member?) && r.res.org in orgs && !r.exclusive
            && (r.res.user == actor || (home == Some(r.res.org) && r.res.user in extra))
    decreases |orgs|
  {
    if orgs != [] {
      var n := |orgs| - 1;
      AllMemberLocksHold(orgs[..n], home, actor, extra, r);
      SortSorts(if home == Some(orgs[n]) then [actor] + extra else [actor]);
      MemberLocksHold(orgs[n], MembersOf(orgs[n], home, actor, extra), r);
      assert orgs == orgs[..n] + [orgs[n]];
    }
  }

  // A project lock takes the users named, the organizations named and the project's own,
  // the project, the actor's membership in each, the other subjects' in the project's own,
  // and the session; and nothing else.
  lemma ProjectPlanHolds(
      actor: Id, owner: Id, home: Option<Id>, extra: seq<Id>, orgs: seq<Id>, project: Id, exclusive: bool,
      session: Id, r: Request)
    ensures r in ProjectPlan(actor, owner, home, extra, orgs, project, exclusive, session) <==>
            match r.res
            case User(id) => !r.exclusive && (id == actor || id == owner || id in extra)
            case Org(id) => !r.exclusive && (id in orgs || home == Some(id))
            case Project(id) => id == project && r.exclusive == exclusive
            case MemberState(org, user) =>
              !r.exclusive && (org in orgs || home == Some(org))
              && (user == actor || (home == Some(org) && user in extra))
            case Member(org, user) =>
              !r.exclusive && (org in orgs || home == Some(org))
              && (user == actor || (home == Some(org) && user in extra))
            case Session(id) => !r.exclusive && session != 0 && id == session
  {
    var all := OrgSet(orgs, home);
    OrgSetHolds(orgs, home);
    SubjectPlanHolds([actor, owner] + extra, false, r);
    OrgLocksHold(all, r);
    AllMemberLocksHold(all, home, actor, extra, r);
    FivePartsHold(SubjectPlan([actor, owner] + extra, false), OrgLocks(all), Request(Project(project), exclusive),
                  AllMemberLocks(all, home, actor, extra), SessionLock(session), r);
  }

  lemma FivePartsHold(
      a: seq<Request>, b: seq<Request>, row: Request, m: seq<Request>, s: seq<Request>, r: Request)
    ensures r in a + b + [row] + m + s <==> r in a || r in b || r == row || r in m || r in s
  {}

  lemma OrgSetHolds(orgs: seq<Id>, home: Option<Id>)
    ensures forall id :: id in OrgSet(orgs, home) <==> id in orgs || home == Some(id)
  {
    KeysAreTheSet(Elements(orgs) + (if home.Some? then {home.value} else {}));
  }

  // Maintenance takes the owner and the other subjects, the project's organization, the
  // project exclusively, and the states of these users.
  lemma MaintenancePlanHolds(
      owner: Id, home: Option<Id>, extra: seq<Id>, project: Id, present: seq<Id>, r: Request)
    ensures r in MaintenancePlan(owner, home, extra, project, present) <==>
            match r.res
            case User(id) => !r.exclusive && (id == owner || id in extra)
            case Org(id) => !r.exclusive && home == Some(id)
            case Project(id) => id == project && r.exclusive
            case MemberState(org, user) => !r.exclusive && home == Some(org) && user in present
            case _ => false
  {
    SubjectPlanHolds([owner] + extra, false, r);
    if home.Some? && r.res.MemberState? && home == Some(r.res.org) && r.res.user in present && !r.exclusive {
      var i :| 0 <= i < |present| && present[i] == r.res.user;
      assert StateLocks(home.value, present)[i] == r;
    }
    assert forall id :: id in [owner] + extra <==> id == owner || id in extra;
  }

  // ---------------------------------------------------------------- every plan is ordered

  lemma SubjectPlanOrdered(ids: seq<Id>, exclusive: bool)
    ensures Ordered(SubjectPlan(ids, exclusive))
    ensures forall r :: r in SubjectPlan(ids, exclusive) ==> r.res.User?
  {
    var plan := SubjectPlan(ids, exclusive);
    KeysAreTheSet(Elements(ids));
    forall j | 0 <= j < |plan| ensures ClimbsOrRepeats(plan, j) {}
  }

  lemma OrgLocksOrdered(ids: seq<Id>)
    requires StrictlyUp(ids)
    ensures Ordered(OrgLocks(ids)) && forall r :: r in OrgLocks(ids) ==> r.res.Org?
  {
    var plan := OrgLocks(ids);
    forall j | 0 <= j < |plan| ensures ClimbsOrRepeats(plan, j) {}
  }

  lemma MemberLockOrdered(org: Id, user: Id)
    ensures Ordered(MemberLock(org, user))
  {
    var plan := MemberLock(org, user);
    forall j | 0 <= j < |plan| ensures ClimbsOrRepeats(plan, j) {}
  }

  ghost predicate MemberLocksOf(plan: seq<Request>, org: Id, users: seq<Id>) {
    && (forall r :: r in plan ==>
        !r.exclusive && (r.res.MemberState? || r.res.Member?) && r.res.org == org && r.res.user in users)
    && (forall u :: u in users ==> Share(MemberState(org, u)) in plan && Share(Member(org, u)) in plan)
  }

  // A user that sorts twice into the list finds both of its rows already locked.
  lemma {:induction false} MemberLocksOrdered(org: Id, users: seq<Id>)
    requires Ascending(users)
    ensures Ordered(MemberLocks(org, users)) && MemberLocksOf(MemberLocks(org, users), org, users)
    decreases |users|
  {
    if users != [] {
      var n := |users| - 1;
      var init := users[..n];
      MemberLocksOrdered(org, init);
      MemberLockOrdered(org, users[n]);
      var (a, b) := (MemberLocks(org, init), MemberLock(org, users[n]));
      assert users == init + [users[n]];
      forall x, y | x in a && y in b ensures Lower(x.res, y.res) || y in a {
        assert x.res.user in init;
        var i :| 0 <= i < n && init[i] == x.res.user;
        assert users[i] <= users[n];
        if users[i] == users[n] { assert users[n] in init; }
      }
      OrderedConcat(a, b);
    }
  }

  ghost predicate MembersBelow(plan: seq<Request>, org: Id) {
    forall r :: r in plan ==> (r.res.MemberState? || r.res.Member?) && r.res.org < org
  }

  lemma {:induction false} AllMemberLocksOrdered(orgs: seq<Id>, home: Option<Id>, actor: Id, extra: seq<Id>, above: Id)
    requires StrictlyUp(orgs) && forall i :: 0 <= i < |orgs| ==> orgs[i] < above
    ensures Ordered(AllMemberLocks(orgs, home, actor, extra))
    ensures MembersBelow(AllMemberLocks(orgs, home, actor, extra), above)
    decreases |orgs|
  {
    if orgs != [] {
      var n := |orgs| - 1;
      var users := if home == Some(orgs[n]) then [actor] + extra else [actor];
      AllMemberLocksOrdered(orgs[..n], home, actor, extra, orgs[n]);
      SortSorts(users);
      MemberLocksOrdered(orgs[n], Sort(users));
      OrderedConcat(AllMemberLocks(orgs[..n], home, actor, extra), MemberLocks(orgs[n], Sort(users)));
    }
  }

  // Plans whose rows are of lower and of higher kinds.
  function Tier(r: Resource): nat { Key(r).0 }

  ghost predicate Under(plan: seq<Request>, tier: nat) { forall r :: r in plan ==> Tier(r.res) < tier }

  ghost predicate From(plan: seq<Request>, tier: nat) { forall r :: r in plan ==> Tier(r.res) >= tier }

  lemma TiersConcat(a: seq<Request>, b: seq<Request>, tier: nat, top: nat)
    requires Ordered(a) && Ordered(b) && Under(a, tier) && From(b, tier) && Under(b, top) && tier <= top
    ensures Ordered(a + b) && Under(a + b, top)
  {
    forall x, y | x in a && y in b ensures Lower(x.res, y.res) {
      assert Tier(x.res) < tier <= Tier(y.res);
    }
    OrderedConcat(a, b);
  }

  lemma SingletonOrdered(r: Request)
    ensures Ordered([r]) && Under([r], Tier(r.res) + 1) && From([r], Tier(r.res))
  {
    assert ClimbsOrRepeats([r], 0);
  }

  lemma ActivePlanOrdered(user: Id, session: Id)
    ensures Ordered(ActivePlan(user, session))
  {
    SubjectPlanOrdered([user], false);
    SingletonOrdered(Share(Session(session)));
    TiersConcat(SubjectPlan([user], false), [Share(Session(session))], 1, 5);
  }

  // RequireOrg behind LockSubjects of any subjects in either mode.
  lemma OrgPlanOrdered(ids: seq<Id>, exclusive: bool, org: Id, user: Id, session: Id)
    ensures Ordered(SubjectPlan(ids, exclusive) + OrgPlan(org, user, session))
  {
    SubjectPlanOrdered(ids, exclusive);
    var plan := OrgPlan(org, user, session);
    forall j | 0 <= j < |plan| ensures ClimbsOrRepeats(plan, j) {}
    TiersConcat(SubjectPlan(ids, exclusive), plan, 1, 5);
  }

  lemma ProjectPlanOrdered(
      actor: Id, owner: Id, home: Option<Id>, extra: seq<Id>, orgs: seq<Id>, project: Id, exclusive: bool, session: Id)
    ensures Ordered(ProjectPlan(actor, owner, home, extra, orgs, project, exclusive, session))
  {
    var all := OrgSet(orgs, home);
    KeysAreTheSet(Elements(orgs) + (if home.Some? then {home.value} else {}));
    SubjectPlanOrdered([actor, owner] + extra, false);
    OrgLocksOrdered(all);
    AllMemberLocksOrdered(all, home, actor, extra, if all == [] then 0 else all[|all| - 1] + 1);
    FivePartsOrdered(SubjectPlan([actor, owner] + extra, false), OrgLocks(all), Request(Project(project), exclusive),
                     AllMemberLocks(all, home, actor, extra), session);
  }

  lemma FivePartsOrdered(subjects: seq<Request>, orgs: seq<Request>, row: Request, members: seq<Request>, session: Id)
    requires Ordered(subjects) && Ordered(orgs) && Ordered(members) && row.res.Project?
    requires Under(subjects, 1) && From(orgs, 1) && Under(orgs, 2) && From(members, 3) && Under(members, 4)
    ensures Ordered(subjects + orgs + [row] + members + SessionLock(session))
  {
    SingletonOrdered(row);
    SingletonOrdered(Share(Session(session)));
    TiersConcat(subjects, orgs, 1, 2);
    TiersConcat(subjects + orgs, [row], 2, 3);
    TiersConcat(subjects + orgs + [row], members, 3, 4);
    TiersConcat(subjects + orgs + [row] + members, SessionLock(session), 4, 5);
  }

  lemma StateLocksOrdered(org: Id, users: seq<Id>)
    requires StrictlyUp(users)
    ensures Ordered(StateLocks(org, users)) && From(StateLocks(org, users), 3) && Under(StateLocks(org, users), 4)
  {
    var states := StateLocks(org, users);
    forall j | 0 <= j < |states| ensures ClimbsOrRepeats(states, j) {}
  }

  lemma MaintenancePlanOrdered(owner: Id, home: Option<Id>, extra: seq<Id>, project: Id, present: seq<Id>)
    requires StrictlyUp(present)
    ensures Ordered(MaintenancePlan(owner, home, extra, project, present))
  {
    var subjects := SubjectPlan([owner] + extra, false);
    var row := Request(Project(project), true);
    var states := if home.Some? then StateLocks(home.value, present) else [];
    SubjectPlanOrdered([owner] + extra, false);
    if home.Some? {
      SingletonOrdered(Share(Org(home.value)));
      StateLocksOrdered(home.value, present);
    }
    SingletonOrdered(row);
    TiersConcat(subjects, HomeLock(home), 1, 2);
    TiersConcat(subjects + HomeLock(home), [row], 2, 3);
    TiersConcat(subjects + HomeLock(home) + [row], states, 3, 4);
  }

  // ---------------------------------------------------------------- transactions waiting for each other

  // A transaction has taken plan[..pos]; if pos < |plan| it asks for plan[pos] next.
  // `ticket` is its place in the queue of that row.
  datatype Tx = Tx(plan: seq<Request>, pos: nat, ticket: nat)

  type Txs = map<Id, Tx>

  predicate Sane(t: Tx) { t.pos <= |t.plan| }

  ghost predicate AllOrdered(s: Txs) { forall t :: t in s ==> Sane(s[t]) && Ordered(s[t].plan) }

  function Held(t: Tx): seq<Request>
    requires Sane(t)
  {
    t.plan[..t.pos]
  }

  predicate Conflict(a: Request, b: Request) { a.res == b.res && (a.exclusive || b.exclusive) }

  // A row already held in that mode is granted again at once.
  predicate Asking(t: Tx) { t.pos < |t.plan| && t.plan[t.pos] !in t.plan[..t.pos] }

  // t cannot go on before u does: u holds the row in a conflicting mode, or asked for it
  // before t in a conflicting mode.
  ghost predicate WaitsFor(s: Txs, t: Id, u: Id)
    requires AllOrdered(s)
  {
    && t in s && u in s && t != u && Asking(s[t])
    && ((exists r :: r in Held(s[u]) && Conflict(r, s[t].plan[s[t].pos]))
        || (Asking(s[u]) && Conflict(s[u].plan[s[u].pos], s[t].plan[s[t].pos]) && s[u].ticket < s[t].ticket))
  }

  // Waiting goes up in the lock order, and down in the queue of one row.
  ghost predicate Above(t: Tx, u: Tx)
    requires Asking(t) && Asking(u)
  {
    Lower(t.plan[t.pos].res, u.plan[u.pos].res) || (t.plan[t.pos].res == u.plan[u.pos].res && u.ticket < t.ticket)
  }

  lemma WaitingGoesUp(s: Txs, t: Id, u: Id)
    requires AllOrdered(s) && WaitsFor(s, t, u) && Asking(s[u])
    ensures Above(s[t], s[u])
  {
    if r :| r in Held(s[u]) && Conflict(r, s[t].plan[s[t].pos]) {
      assert ClimbsOrRepeats(s[u].plan, s[u].pos);
      var i :| 0 <= i < s[u].pos && s[u].plan[i] == r;
      assert Lower(s[u].plan[i].res, s[u].plan[s[u].pos].res);
    }
  }

  ghost predicate WaitChain(s: Txs, c: seq<Id>)
    requires AllOrdered(s)
  {
    forall i :: 0 <= i < |c| - 1 ==> WaitsFor(s, c[i], c[i + 1])
  }

  lemma {:induction false} ChainGoesUp(s: Txs, c: seq<Id>)
    requires AllOrdered(s) && |c| >= 2 && WaitChain(s, c) && c[|c| - 1] in s && Asking(s[c[|c| - 1]])
    ensures c[0] in s && Asking(s[c[0]]) && Above(s[c[0]], s[c[|c| - 1]])
    decreases |c|
  {
    assert WaitsFor(s, c[0], c[1]);
    if |c| == 2 {
      WaitingGoesUp(s, c[0], c[1]);
    } else {
      forall i | 0 <= i < |c[1..]| - 1 ensures WaitsFor(s, c[1..][i], c[1..][i + 1]) {
        assert WaitsFor(s, c[i + 1], c[i + 2]);
      }
      ChainGoesUp(s, c[1..]);
      WaitingGoesUp(s, c[0], c[1]);
    }
  }

  // No set of transactions waits in a circle.
  lemma NoWaitCycle(s: Txs, c: seq<Id>)
    requires AllOrdered(s) && |c| >= 2 && WaitChain(s, c)
    ensures c[0] != c[|c| - 1]
  {
    assert WaitsFor(s, c[0], c[1]);
    if c[|c| - 1] in s && Asking(s[c[|c| - 1]]) {
      ChainGoesUp(s, c);
    }
  }

  ghost predicate Blocked(s: Txs, t: Id)
    requires AllOrdered(s)
  {
    exists u :: WaitsFor(s, t, u)
  }

  ghost predicate CanGoOn(s: Txs, t: Id)
    requires AllOrdered(s)
  {
    t in s && !Blocked(s, t)
  }

  lemma {:induction false} TopExists(s: Txs, waiting: set<Id>) returns (top: Id)
    requires AllOrdered(s) && waiting != {} && forall t :: t in waiting ==> t in s && Asking(s[t])
    ensures top in waiting && forall t :: t in waiting ==> !Above(s[top], s[t])
    decreases waiting
  {
    top :| top in waiting;
    if waiting != {top} {
      var rest := waiting - {top};
      var best := TopExists(s, rest);
      if Above(s[best], s[top]) {
        forall t | t in rest ensures !Above(s[top], s[t]) {
          assert !Above(s[best], s[t]);
        }
      } else {
        top := best;
      }
    }
  }

  lemma BlockerIsFreeOrAbove(s: Txs, t: Id, u: Id)
    requires AllOrdered(s) && WaitsFor(s, t, u)
    ensures Asking(s[t]) && u in s
    ensures Blocked(s, u) ==> Asking(s[u]) && Above(s[t], s[u])
  {
    if v :| WaitsFor(s, u, v) { WaitingGoesUp(s, t, u); }
  }

  // In every state of any set of transactions with ordered plans, someone can go on.
  lemma SomeoneCanGoOn(s: Txs)
    requires AllOrdered(s) && s != map[]
    ensures exists t :: CanGoOn(s, t)
  {
    var blocked := set t | t in s && Blocked(s, t);
    var some :| some in s;
    if blocked != {} {
      forall t | t in blocked ensures t in s && Asking(s[t]) {
        var u :| WaitsFor(s, t, u);
        BlockerIsFreeOrAbove(s, t, u);
      }
      var top := TopExists(s, blocked);
      var u :| WaitsFor(s, top, u);
      BlockerIsFreeOrAbove(s, top, u);
      assert CanGoOn(s, u);
    } else {
      assert some !in blocked;
      assert CanGoOn(s, some);
    }
  }

  // ---------------------------------------------------------------- every schedule finishes

  // A transaction that waits for nobody takes its next row and gets a place in the queue
  // of the one after it, or, with nothing left to take, commits and is gone.
  function Step(s: Txs, t: Id, ticket: nat): Txs
    requires t in s
  {
    if s[t].pos < |s[t].plan| then s[t := s[t].(pos := s[t].pos + 1, ticket := ticket)] else s - {t}
  }

  lemma StepKeepsOrdered(s: Txs, t: Id, ticket: nat)
    requires AllOrdered(s) && t in s
    ensures AllOrdered(Step(s, t, ticket))
  {}

  // How places in the queues are given out.
  type Queue = (Txs, Id) -> nat

  // Going on in this order, one step each, leads from s to `end`.
  ghost predicate Leads(s: Txs, order: seq<Id>, queue: Queue, end: Txs)
    requires AllOrdered(s)
    decreases |order|
  {
    if order == [] then s == end
    else
      var t := order[0];
      && CanGoOn(s, t)
      && (StepKeepsOrdered(s, t, queue(s, t)); Leads(Step(s, t, queue(s, t)), order[1..], queue, end))
  }

  // No two transactions hold one row in conflicting modes.
  ghost predicate Compatible(s: Txs)
    requires AllOrdered(s)
  {
    forall t, u, a, b :: t in s && u in s && t != u && a in Held(s[t]) && b in Held(s[u]) ==> !Conflict(a, b)
  }

  lemma StepKeepsCompatible(s: Txs, t: Id, ticket: nat)
    requires AllOrdered(s) && Compatible(s) && CanGoOn(s, t)
    ensures AllOrdered(Step(s, t, ticket)) && Compatible(Step(s, t, ticket))
  {
    StepKeepsOrdered(s, t, ticket);
    var n := Step(s, t, ticket);
    forall v, u, a, b | v in n && u in n && v != u && a in Held(n[v]) && b in Held(n[u]) ensures !Conflict(a, b) {
      if v == t {
        TakenIsCompatible(s, t, ticket, u, a, b);
      } else if u == t {
        TakenIsCompatible(s, t, ticket, v, b, a);
      }
    }
  }

  lemma TakenIsCompatible(s: Txs, t: Id, ticket: nat, u: Id, a: Request, b: Request)
    requires AllOrdered(s) && Compatible(s) && CanGoOn(s, t) && u in s && u != t && s[t].pos < |s[t].plan|
    requires a in s[t].plan[..s[t].pos + 1] && b in Held(s[u])
    ensures !Conflict(a, b)
  {
    var (plan, pos) := (s[t].plan, s[t].pos);
    assert plan[..pos + 1] == plan[..pos] + [plan[pos]];
    if a !in Held(s[t]) {
      assert a == plan[pos] && Asking(s[t]);
      assert !WaitsFor(s, t, u);
    }
  }

  // Rows still to be taken, and the commit.
  function Left(t: Tx): nat { if t.pos <= |t.plan| then |t.plan| - t.pos + 1 else 1 }

  ghost function AnyOf(s: Txs): (t: Id)
    requires s != map[]
    ensures t in s
  {
    var t :| t in s;
    t
  }

  ghost function Work(s: Txs): nat
    decreases |s|
  {
    if s == map[] then 0 else Left(s[AnyOf(s)]) + Work(s - {AnyOf(s)})
  }

  lemma {:induction false} WorkOfOne(s: Txs, t: Id)
    requires t in s
    ensures Work(s) == Left(s[t]) + Work(s - {t})
    decreases |s|
  {
    var u := AnyOf(s);
    if u != t {
      WorkOfOne(s - {u}, t);
      WorkOfOne(s - {t}, u);
      assert s - {u} - {t} == s - {t} - {u};
    }
  }

  lemma StepCostsOne(s: Txs, t: Id, ticket: nat)
    requires AllOrdered(s) && t in s
    ensures Work(Step(s, t, ticket)) == Work(s) - 1
  {
    WorkOfOne(s, t);
    var n := Step(s, t, ticket);
    if s[t].pos < |s[t].plan| {
      WorkOfOne(n, t);
      assert n - {t} == s - {t};
    }
  }

  // Whoever goes on each time and however queues are served: a schedule takes as many
  // steps as there is work, is not over before that, and never conflicts.
  lemma {:induction false} SchedulesEndWithTheWork(s: Txs, order: seq<Id>, queue: Queue, end: Txs)
    requires AllOrdered(s) && Leads(s, order, queue, end)
    ensures AllOrdered(end) && |order| + Work(end) == Work(s)
    ensures end == map[] <==> |order| == Work(s)
    ensures end != map[] ==> exists t :: CanGoOn(end, t)
    ensures Compatible(s) ==> Compatible(end)
    decreases |order|
  {
    if order == [] {
      if s != map[] { SomeoneCanGoOn(s); }
    } else {
      var t := order[0];
      StepKeepsOrdered(s, t, queue(s, t));
      StepCostsOne(s, t, queue(s, t));
      if Compatible(s) { StepKeepsCompatible(s, t, queue(s, t)); }
      SchedulesEndWithTheWork(Step(s, t, queue(s, t)), order[1..], queue, end);
    }
  }

  // From every state there is a schedule in which all transactions commit.
  lemma {:induction false} AllCanFinish(s: Txs, queue: Queue) returns (order: seq<Id>)
    requires AllOrdered(s)
    ensures Leads(s, order, queue, map[])
    decreases Work(s)
  {
    order := [];
    if s != map[] {
      SomeoneCanGoOn(s);
      var t :| CanGoOn(s, t);
      StepKeepsOrdered(s, t, queue(s, t));
      StepCostsOne(s, t, queue(s, t));
      var rest := AllCanFinish(Step(s, t, queue(s, t)), queue);
      order := [t] + rest;
      assert order[1..] == rest;
    }
  }
}
