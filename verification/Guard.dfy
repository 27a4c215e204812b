/**
 The methods of backend/internal/authority/guard.go (PostgreSQL branches). Each locks
 the beginning of an ordered plan, the whole of it when it succeeds.
 */
module Guard {
  import opened Wrappers
  import opened LockOrder
  import Policy

  datatype ProjectRow = ProjectRow(owner: Id, org: Option<Id>, deleted: bool)
  datatype SessionRow = SessionRow(user: Id, revoked: bool, expires: int, created: int)
  datatype StateRow = StateRow(active: bool, epoch: int)

  // What one statement sees.
  datatype Snapshot = Snapshot(
    users: set<Id>, orgs: set<Id>, projects: map<Id, ProjectRow>, states: map<(Id, Id), StateRow>,
    members: map<(Id, Id), string>, sessions: map<Id, SessionRow>, apiKeys: map<Id, Id>, now: int)

  const TEN_MINUTES := 600_000_000_000

  // `after` adds to `before` the first locks of `plan`, in its order.
  ghost predicate Took(before: seq<Request>, after: seq<Request>, plan: seq<Request>) {
    && |before| <= |after| <= |before| + |plan|
    && after == before + plan[..|after| - |before|]
  }

  lemma TookAll(before: seq<Request>, plan: seq<Request>)
    ensures Took(before, before + plan, plan) && Took(before, before, plan)
  {
    assert plan[..|plan|] == plan;
  }

  lemma TookMore(
        before: seq<Request>, mid: seq<Request>, after: seq<Request>, first: seq<Request>, second: seq<Request>)
    requires mid == before + first && Took(mid, after, second)
    ensures Took(before, after, first + second)
  {
    var n := |after| - |mid|;
    assert (first + second)[..|first| + n] == first + second[..n];
  }

  lemma TookLess(before: seq<Request>, after: seq<Request>, first: seq<Request>, second: seq<Request>)
    requires Took(before, after, first)
    ensures Took(before, after, first + second)
  {
    var n := |after| - |before|;
    assert (first + second)[..n] == first[..n];
  }

  lemma TookPrefix(before: seq<Request>, after: seq<Request>, first: seq<Request>, plan: seq<Request>)
    requires Took(before, after, first) && first <= plan
    ensures Took(before, after, plan)
  {
    TookLess(before, after, first, plan[|first|..]);
    assert plan == first + plan[|first|..];
  }

  // What was taken is the beginning of an ordered plan, so it is ordered.
  lemma TookIsOrdered(before: seq<Request>, after: seq<Request>, plan: seq<Request>)
    requires Took(before, after, plan) && Ordered(plan)
    ensures Ordered(after[|before|..])
  {
    var taken := after[|before|..];
    assert taken == plan[..|taken|];
    forall j | 0 <= j < |taken| ensures ClimbsOrRepeats(taken, j) {
      assert ClimbsOrRepeats(plan, j) && taken[..j] == plan[..j];
    }
  }

  // ---------------------------------------------------------------- what a lock finds

  predicate StateStands(w: Snapshot, org: Id, user: Id) {
    (org, user) in w.states && w.states[(org, user)].active && w.states[(org, user)].epoch >= 1
  }

  predicate HasRole(w: Snapshot, org: Id, user: Id, role: string) {
    && (org, user) in w.members
    && (role == "" || Policy.RoleAllows(w.members[(org, user)], role))
  }

  predicate Live(w: Snapshot, session: Id) {
    session in w.sessions && !w.sessions[session].revoked && w.sessions[session].expires > w.now
  }

  // The caller's own live session, created within ten minutes when that is asked.
  predicate SessionStands(w: Snapshot, p: Policy.Principal, recent: bool) {
    && (p.kind == Policy.Human || p.kind == Policy.OAuthDelegation)
    && p.subject != 0 && p.session != 0 && p.actor in {0, p.subject}
    && Live(w, p.session) && w.sessions[p.session].user == p.subject
    && (recent ==> w.sessions[p.session].created > w.now - TEN_MINUTES)
  }

  // The row a statement locks exists and stands in what that statement sees.
  predicate Finds(w: Snapshot, r: Request) {
    match r.res
    case User(id) => id in w.users
    case Org(id) => id in w.orgs
    case Project(id) => id in w.projects
    case MemberState(org, user) => StateStands(w, org, user)
    case Member(org, user) => (org, user) in w.members
    case Session(id) => Live(w, id)
  }

  // Statements from, from + 1, ... took the locks of `plan` one by one, each finding its row.
  ghost predicate Found(world: nat -> Snapshot, from: nat, plan: seq<Request>) {
    forall i: nat :: i < |plan| ==> FindsAt(world, from, plan, i)
  }

  predicate FindsAt(world: nat -> Snapshot, from: nat, plan: seq<Request>, i: nat)
    requires i < |plan|
  {
    Finds(world(from + i), plan[i])
  }

  // Statements from `from` to `now` locked the beginning of `plan`, and all of it if `ok`.
  ghost predicate Ran(from: nat, now: nat, before: seq<Request>, after: seq<Request>, plan: seq<Request>, ok: bool) {
    from <= now && Took(before, after, plan) && (ok ==> after == before + plan && now == from + |plan|)
  }

  lemma RanBoth(
      from: nat, mid: nat, now: nat,
      before: seq<Request>, held: seq<Request>, after: seq<Request>, a: seq<Request>, b: seq<Request>, ok: bool)
    requires Ran(from, mid, before, held, a, true) && Ran(mid, now, held, after, b, ok)
    ensures Ran(from, now, before, after, a + b, ok)
  {
    TookMore(before, held, after, a, b);
  }

  lemma RanFirst(
      from: nat, now: nat, before: seq<Request>, after: seq<Request>, a: seq<Request>, b: seq<Request>)
    requires Ran(from, now, before, after, a, false)
    ensures Ran(from, now, before, after, a + b, false)
  {
    TookLess(before, after, a, b);
  }

  lemma FoundSplits(world: nat -> Snapshot, from: nat, a: seq<Request>, b: seq<Request>)
    ensures Found(world, from, a + b) <==> Found(world, from, a) && Found(world, from + |a|, b)
  {
    forall i: nat | i < |a| && Found(world, from, a + b) ensures FindsAt(world, from, a, i) {
      assert FindsAt(world, from, a + b, i);
    }
    var mid := from + |a|;
    forall i: nat | i < |b| && Found(world, from, a + b) ensures FindsAt(world, mid, b, i) {
      assert FindsAt(world, from, a + b, |a| + i);
    }
    forall i: nat | i < |a + b| && Found(world, from, a) && Found(world, from + |a|, b)
      ensures FindsAt(world, from, a + b, i)
    {
      if i >= |a| { assert FindsAt(world, from + |a|, b, i - |a|); } else { assert FindsAt(world, from, a, i); }
    }
  }

  lemma FoundPrefix(world: nat -> Snapshot, from: nat, plan: seq<Request>, a: seq<Request>)
    requires a <= plan
    ensures Found(world, from, plan) ==> Found(world, from, a)
  {
    assert plan == a + plan[|a|..];
    FoundSplits(world, from, a, plan[|a|..]);
  }

  function SessionOf(p: Policy.Principal): Id {
    if p.kind == Policy.Human || p.kind == Policy.OAuthDelegation then p.session else 0
  }

  // The user a principal acts for; an API key's owner is looked up and may be missing.
  function ActorIn(p: Policy.Principal, apiKeys: map<Id, Id>): Option<Id> {
    match p.kind
    case Human => Some(p.subject)
    case OAuthDelegation => Some(p.subject)
    case APIKey => if p.subject in apiKeys then Some(apiKeys[p.subject]) else None
    case _ => Some(p.actor)
  }

  // Without an organization only the owner may be named as a further subject.
  predicate OwnerOnly(home: Option<Id>, owner: Id, extra: seq<Id>) {
    home.None? ==> forall x :: x in extra ==> x == owner
  }

  // ---------------------------------------------------------------- when a project lock succeeds

  predicate RowStands(w: Snapshot, project: Id, owner: Id, home: Option<Id>, live: bool) {
    && project in w.projects && w.projects[project].owner == owner && w.projects[project].org == home
    && (live ==> !w.projects[project].deleted)
  }

  // What statements t, t + 1, ... must find below the project row.
  ghost predicate BelowStands(world: nat -> Snapshot, t: nat, ids: seq<Id>, orgs: seq<Id>) {
    && 0 !in ids && Found(world, t, SubjectPlan(ids, false))
    && Found(world, t + |SubjectPlan(ids, false)|, OrgLocks(orgs))
  }

  // And above it.
  ghost predicate AboveStands(
    world: nat -> Snapshot, t: nat, p: Policy.Principal, orgs: seq<Id>, home: Option<Id>,
    actor: Id, owner: Id, extra: seq<Id>, session: Id)
  {
    && Found(world, t, AllMemberLocks(orgs, home, actor, extra)) && OwnerOnly(home, owner, extra)
    && (session != 0 ==> SessionStands(world(t + |AllMemberLocks(orgs, home, actor, extra)|), p, false))
  }

  // The locks before that of the project row.
  function BelowPlan(actor: Id, owner: Id, home: Option<Id>, extra: seq<Id>, organizations: seq<Id>): seq<Request> {
    SubjectPlan([actor, owner] + extra, false) + OrgLocks(OrgSet(organizations, home))
  }

  // The owner and organization were discovered before statement t; the statement that
  // locks the project finds them unchanged.
  ghost predicate DiscoveredStands(
    world: nat -> Snapshot, t: nat, p: Policy.Principal, actor: Id, owner: Id, home: Option<Id>,
    extra: seq<Id>, organizations: seq<Id>, project: Id, session: Id)
  {
    var orgs := OrgSet(organizations, home);
    var at := t + |BelowPlan(actor, owner, home, extra, organizations)|;
    && 0 !in organizations && BelowStands(world, t, [actor, owner] + extra, orgs)
    && RowStands(world(at), project, owner, home, true)
    && AboveStands(world, at + 1, p, orgs, home, actor, owner, extra, session)
  }

  // Statement t discovers the project, and the ones after it stand on what it saw.
  ghost predicate DiscoveryStands(
    world: nat -> Snapshot, t: nat, p: Policy.Principal, actor: Id, project: Id,
    extra: seq<Id>, organizations: seq<Id>)
  {
    var rows := world(t).projects;
    && project in rows && !rows[project].deleted
    && DiscoveredStands(world, t + 1, p, actor, rows[project].owner, rows[project].org,
                        extra, organizations, project, SessionOf(p))
  }

  // Everything LockProjectOrganizations asks of what its statements find, from statement t on.
  ghost predicate ProjectAdmits(
    world: nat -> Snapshot, t: nat, p: Policy.Principal, project: Id, extra: seq<Id>, organizations: seq<Id>)
  {
    match ActorIn(p, world(t).apiKeys)
    case None => false
    case Some(actor) =>
      DiscoveryStands(world, if p.kind == Policy.APIKey then t + 1 else t, p, actor, project, extra, organizations)
  }

  // Statement `at` took the lock of the project row, as part of the plan run from `from` on.
  predicate LocksProjectAt(plan: seq<Request>, from: nat, at: nat, project: Id, exclusive: bool) {
    from <= at < from + |plan| && plan[at - from] == Request(Project(project), exclusive)
  }

  // The statements from `from` on took `plan`, each finding its row; statement `at` locked
  // the live project row, and the plan is the one for the owner and organization it saw.
  ghost predicate Secured(
    world: nat -> Snapshot, from: nat, at: nat, plan: seq<Request>, p: Policy.Principal, actor: Id,
    project: Id, exclusive: bool, extra: seq<Id>, organizations: seq<Id>)
  {
    && Found(world, from, plan) && LocksProjectAt(plan, from, at, project, exclusive)
    && project in world(at).projects
    && var row := world(at).projects[project];
    && !row.deleted && 0 !in organizations && 0 !in extra && OwnerOnly(row.org, row.owner, extra)
    && plan == ProjectPlan(actor, row.owner, row.org, extra, organizations, project, exclusive, SessionOf(p))
    && (SessionOf(p) != 0 ==> SessionStands(world(from + |plan| - 1), p, false))
  }

  function MaintenanceBelow(owner: Id, home: Option<Id>, extra: seq<Id>): seq<Request> {
    SubjectPlan([owner] + extra, false) + HomeLock(home)
  }

  // The same for LockProjectMaintenance, after its discovery.
  ghost predicate MaintenanceStands(
    world: nat -> Snapshot, t: nat, owner: Id, home: Option<Id>, extra: seq<Id>, project: Id)
  {
    && 0 !in [owner] + extra && Found(world, t, SubjectPlan([owner] + extra, false))
    && Found(world, t + |SubjectPlan([owner] + extra, false)|, HomeLock(home))
    && RowStands(world(t + |MaintenanceBelow(owner, home, extra)|), project, owner, home, false)
  }

  ghost predicate MaintenanceAdmits(world: nat -> Snapshot, t: nat, project: Id, extra: seq<Id>) {
    && project in world(t).projects
    && var row := world(t).projects[project]; MaintenanceStands(world, t + 1, row.owner, row.org, extra, project)
  }

  // Of these users, `present` are those whose state the statements from `from` on find.
  ghost predicate HaveStates(world: nat -> Snapshot, from: nat, org: Id, users: seq<Id>, present: seq<Id>) {
    && (forall x :: x in present ==> x in users)
    && (forall i :: 0 <= i < |users| ==> (users[i] in present <==> (org, users[i]) in world(from + i).states))
  }

  // The plan for a project with this owner and organization, and the member states found
  // by the statements after the one that locked the project row.
  ghost predicate MaintainedFor(
    world: nat -> Snapshot, at: nat, plan: seq<Request>, owner: Id, home: Option<Id>, extra: seq<Id>, project: Id)
  {
    exists present :: MaintainedWith(world, at, plan, owner, home, extra, project, present)
  }

  ghost predicate MaintainedWith(
    world: nat -> Snapshot, at: nat, plan: seq<Request>, owner: Id, home: Option<Id>, extra: seq<Id>, project: Id,
    present: seq<Id>)
  {
    && StrictlyUp(present) && plan == MaintenancePlan(owner, home, extra, project, present)
    && (home.Some? ==> HaveStates(world, at + 1, home.value, Keys(Elements([owner] + extra)), present))
  }

  // One transaction at READ COMMITTED: statement k sees world(k), whatever other
  // transactions have committed by then, and locks the row it finds.
  class Transaction {
    const world: nat -> Snapshot
    var tick: nat
    var locks: seq<Request>

    constructor (world: nat -> Snapshot)
      ensures this.world == world && tick == 0 && locks == []
    {
      this.world := world;
      tick, locks := 0, [];
    }

    method Select(row: Request, found: bool)
      modifies this
      ensures tick == old(tick) + 1
      ensures locks == if found then old(locks) + [row] else old(locks)
    {
      tick := tick + 1;
      if found {
        locks := locks + [row];
      }
    }

    method LockSubjects(ids: seq<Id>, exclusive: bool) returns (ok: bool)
      modifies this
      ensures Ran(old(tick), tick, old(locks), locks, SubjectPlan(ids, exclusive), ok)
      ensures Ordered(locks[|old(locks)|..])
      ensures ok <==> 0 !in ids && Found(world, old(tick), SubjectPlan(ids, exclusive))
    {
      ghost var plan := SubjectPlan(ids, exclusive);
      SubjectPlanOrdered(ids, exclusive);
      if 0 in ids {
        TookAll(locks, plan);
        ok := false;
      } else {
        ok := LockUsers(Keys(set id | id in ids), exclusive);
      }
      TookIsOrdered(old(locks), locks, plan);
    }

    // The rows of `ordered` one by one, until one is missing.
    method LockUsers(ordered: seq<Id>, exclusive: bool) returns (ok: bool)
      modifies this
      ensures Ran(old(tick), tick, old(locks), locks, UserLocks(ordered, exclusive), ok)
      ensures ok <==> Found(world, old(tick), UserLocks(ordered, exclusive))
    {
      ghost var plan := UserLocks(ordered, exclusive);
      assert locks == old(locks) + plan[..0];
      for i := 0 to |ordered|
        invariant tick == old(tick) + i && locks == old(locks) + plan[..i]
        invariant forall k: nat :: k < i ==> FindsAt(world, old(tick), plan, k)
      {
        var found := ordered[i] in world(tick).users;
        assert found <==> FindsAt(world, old(tick), plan, i);
        Select(Request(User(ordered[i]), exclusive), found);
        if !found {
          return false;
        }
        assert plan[..i + 1] == plan[..i] + [Request(User(ordered[i]), exclusive)];
      }
      assert plan[..|ordered|] == plan;
      return true;
    }

    method RequireSession(p: Policy.Principal, recent: bool) returns (ok: bool)
      modifies this
      ensures tick >= old(tick)
      ensures locks == if ok then old(locks) + [Share(Session(p.session))] else old(locks)
      ensures ok <==> SessionStands(world(old(tick)), p, recent)
      ensures ok ==> tick == old(tick) + 1
    {
      if (p.kind != Policy.Human && p.kind != Policy.OAuthDelegation) || p.subject == 0 || p.session == 0
         || (p.actor != 0 && p.actor != p.subject) {
        return false;
      }
      var w := world(tick);
      ok := p.session in w.sessions && w.sessions[p.session].user == p.subject
            && !w.sessions[p.session].revoked && w.sessions[p.session].expires > w.now
            && (!recent || w.sessions[p.session].created > w.now - TEN_MINUTES);
      Select(Share(Session(p.session)), ok);
    }

    // RequireRecentTx too, with `recent`.
    method RequireActiveTx(user: Id, session: Id, recent: bool) returns (ok: bool)
      modifies this
      ensures Took(old(locks), locks, ActivePlan(user, session)) && Ordered(ActivePlan(user, session))
      ensures Ordered(locks[|old(locks)|..])
      ensures ok <==> user != 0 && user in world(old(tick)).users
                      && SessionStands(world(old(tick) + 1), HumanOf(user, session), recent)
      ensures ok ==> locks == old(locks) + ActivePlan(user, session) && tick == old(tick) + 2
    {
      var p := HumanOf(user, session);
      ghost var tail := [Share(Session(session))];
      OneSubject(user, false);
      ActivePlanOrdered(user, session);
      ok := LockSubjects([user], false);
      TookLess(old(locks), locks, SubjectPlan([user], false), tail);
      TookIsOrdered(old(locks), locks, ActivePlan(user, session));
      if !ok {
        assert user == 0 || !FindsAt(world, old(tick), SubjectPlan([user], false), 0);
        return;
      }
      assert FindsAt(world, old(tick), SubjectPlan([user], false), 0);
      ghost var mid := locks;
      ok := RequireSession(p, recent);
      assert locks == mid + tail[..if ok then 1 else 0];
      TookMore(old(locks), mid, locks, SubjectPlan([user], false), tail);
      TookIsOrdered(old(locks), locks, ActivePlan(user, session));
    }

    // An inactive state row is locked too before the member is refused.
    method LockMember(org: Id, user: Id, role: string) returns (ok: bool)
      modifies this
      ensures tick >= old(tick) && Took(old(locks), locks, MemberLock(org, user))
      ensures ok <==> StateStands(world(old(tick)), org, user) && HasRole(world(old(tick) + 1), org, user, role)
      ensures ok ==> locks == old(locks) + MemberLock(org, user) && tick == old(tick) + 2
    {
      ghost var plan := MemberLock(org, user);
      var w := world(tick);
      var found := (org, user) in w.states;
      Select(Share(MemberState(org, user)), found);
      assert locks == old(locks) + plan[..if found then 1 else 0];
      if !found || !w.states[(org, user)].active || w.states[(org, user)].epoch < 1 {
        return false;
      }
      w := world(tick);
      found := (org, user) in w.members;
      Select(Share(Member(org, user)), found);
      assert locks == old(locks) + plan[..if found then 2 else 1];
      if !found || (role != "" && !Policy.RoleAllows(w.members[(org, user)], role)) {
        return false;
      }
      return true;
    }

    // It expects the subjects to be locked already, in either mode.
    method RequireOrg(p: Policy.Principal, org: Id, role: string) returns (ok: bool)
      modifies this
      ensures Took(old(locks), locks, OrgPlan(org, p.subject, p.session))
      ensures forall ids, exclusive :: Ordered(SubjectPlan(ids, exclusive) + OrgPlan(org, p.subject, p.session))
      ensures forall ids, exclusive :: old(locks) == SubjectPlan(ids, exclusive) ==> Ordered(locks)
      ensures ok <==> && org in world(old(tick)).orgs
                      && StateStands(world(old(tick) + 1), org, p.subject)
                      && HasRole(world(old(tick) + 2), org, p.subject, role)
                      && SessionStands(world(old(tick) + 3), p, false)
      ensures ok ==> locks == old(locks) + OrgPlan(org, p.subject, p.session) && tick == old(tick) + 4
    {
      ghost var (a, b, c) := ([Share(Org(org))], MemberLock(org, p.subject), [Share(Session(p.session))]);
      ghost var plan := OrgPlan(org, p.subject, p.session);
      var found := org in world(tick).orgs;
      Select(Share(Org(org)), found);
      assert locks == old(locks) + a[..if found then 1 else 0];
      TookLess(old(locks), locks, a, b + c);
      assert a + (b + c) == plan;
      BehindSubjects(old(locks), locks, org, p.subject, p.session);
      if !found {
        return false;
      }
      ghost var mid := locks;
      ok := LockMember(org, p.subject, role);
      TookLess(mid, locks, b, c);
      TookMore(old(locks), mid, locks, a, b + c);
      BehindSubjects(old(locks), locks, org, p.subject, p.session);
      if !ok {
        return;
      }
      ghost var last := locks;
      ok := RequireSession(p, false);
      assert locks == last + c[..if ok then 1 else 0];
      TookMore(mid, last, locks, b, c);
      TookMore(old(locks), mid, locks, a, b + c);
      BehindSubjects(old(locks), locks, org, p.subject, p.session);
    }

    method LockOrgs(orgs: seq<Id>) returns (ok: bool)
      modifies this
      ensures Ran(old(tick), tick, old(locks), locks, OrgLocks(orgs), ok)
      ensures ok <==> Found(world, old(tick), OrgLocks(orgs))
    {
      ghost var plan := OrgLocks(orgs);
      assert locks == old(locks) + plan[..0];
      for i := 0 to |orgs|
        invariant tick == old(tick) + i && locks == old(locks) + plan[..i]
        invariant forall k: nat :: k < i ==> FindsAt(world, old(tick), plan, k)
      {
        var found := orgs[i] in world(tick).orgs;
        assert found <==> FindsAt(world, old(tick), plan, i);
        Select(Share(Org(orgs[i])), found);
        if !found {
          return false;
        }
        assert plan[..i + 1] == plan[..i] + [Share(Org(orgs[i]))];
      }
      assert plan[..|orgs|] == plan;
      return true;
    }

    method LockMembers(org: Id, users: seq<Id>) returns (ok: bool)
      modifies this
      ensures Ran(old(tick), tick, old(locks), locks, MemberLocks(org, users), ok)
      ensures ok <==> Found(world, old(tick), MemberLocks(org, users))
    {
      assert MemberLocks(org, users[..0]) == [];
      for i := 0 to |users|
        invariant Ran(old(tick), tick, old(locks), locks, MemberLocks(org, users[..i]), true)
        invariant Found(world, old(tick), MemberLocks(org, users[..i]))
      {
        ghost var (held, mid) := (locks, tick);
        ghost var (first, next) := (MemberLocks(org, users[..i]), MemberLock(org, users[i]));
        ok := LockMember(org, users[i], "");
        MemberFound(world, mid, org, users[i]);
        FoundSplits(world, old(tick), first, next);
        RanBoth(old(tick), mid, tick, old(locks), held, locks, first, next, ok);
        assert users[..i + 1][..i] == users[..i];
        if !ok {
          MemberLocksGrow(org, users, i + 1);
          TookPrefix(old(locks), locks, first + next, MemberLocks(org, users));
          FoundPrefix(world, old(tick), MemberLocks(org, users), first + next);
          return;
        }
      }
      assert users[..|users|] == users;
      return true;
    }

    method LockAllMembers(orgs: seq<Id>, home: Option<Id>, actor: Id, extra: seq<Id>) returns (ok: bool)
      modifies this
      ensures Ran(old(tick), tick, old(locks), locks, AllMemberLocks(orgs, home, actor, extra), ok)
      ensures ok <==> Found(world, old(tick), AllMemberLocks(orgs, home, actor, extra))
    {
      assert AllMemberLocks(orgs[..0], home, actor, extra) == [];
      for i := 0 to |orgs|
        invariant Ran(old(tick), tick, old(locks), locks, AllMemberLocks(orgs[..i], home, actor, extra), true)
        invariant Found(world, old(tick), AllMemberLocks(orgs[..i], home, actor, extra))
      {
        ok := LockMembersOf(orgs, home, actor, extra, i, old(tick), old(locks));
        if !ok {
          ghost var (part, plan) := (AllMemberLocks(orgs[..i + 1], home, actor, extra),
                                     AllMemberLocks(orgs, home, actor, extra));
          AllMemberLocksGrow(orgs, home, actor, extra, i + 1);
          TookPrefix(old(locks), locks, part, plan);
          FoundPrefix(world, old(tick), plan, part);
          return;
        }
      }
      assert orgs[..|orgs|] == orgs;
      return true;
    }

    // The next organization's members, after those of the ones before.
    method LockMembersOf(
        orgs: seq<Id>, home: Option<Id>, actor: Id, extra: seq<Id>, i: nat, ghost from: nat, ghost before: seq<Request>)
      returns (ok: bool)
      requires i < |orgs| && Ran(from, tick, before, locks, AllMemberLocks(orgs[..i], home, actor, extra), true)
      requires Found(world, from, AllMemberLocks(orgs[..i], home, actor, extra))
      modifies this
      ensures Ran(from, tick, before, locks, AllMemberLocks(orgs[..i + 1], home, actor, extra), ok)
      ensures ok <==> Found(world, from, AllMemberLocks(orgs[..i + 1], home, actor, extra))
    {
      var members := [actor];
      if home == Some(orgs[i]) {
        members := members + extra;
      }
      members := Sort(members);
      ghost var (first, next) := (AllMemberLocks(orgs[..i], home, actor, extra), MemberLocks(orgs[i], members));
      ok := LockMembers(orgs[i], members);
      assert old(tick) == from + |first|;
      RanBoth(from, old(tick), tick, before, old(locks), locks, first, next, ok);
      FoundSplits(world, from, first, next);
      OneOrgMore(orgs, home, actor, extra, i);
    }

    // The locks below the project row, and those above it.
    method LockBelow(ids: seq<Id>, orgs: seq<Id>, usable: bool) returns (ok: bool)
      modifies this
      ensures Ran(old(tick), tick, old(locks), locks, SubjectPlan(ids, false) + OrgLocks(orgs), ok)
      ensures ok <==> usable && BelowStands(world, old(tick), ids, orgs)
    {
      ghost var (a, b) := (SubjectPlan(ids, false), OrgLocks(orgs));
      ok := LockSubjects(ids, false);
      if !ok || !usable {
        RanFirst(old(tick), tick, old(locks), locks, a, b);
        return false;
      }
      ghost var (held, mid) := (locks, tick);
      assert mid == old(tick) + |a|;
      ok := LockOrgs(orgs);
      assert ok <==> Found(world, old(tick) + |a|, b);
      RanBoth(old(tick), mid, tick, old(locks), held, locks, a, b, ok);
    }

    method LockAbove(
        p: Policy.Principal, orgs: seq<Id>, home: Option<Id>, actor: Id, owner: Id, extra: seq<Id>, session: Id)
      returns (ok: bool)
      requires session != 0 ==> session == p.session
      modifies this
      ensures Ran(old(tick), tick, old(locks), locks,
                  AllMemberLocks(orgs, home, actor, extra) + SessionLock(session), ok)
      ensures ok <==> AboveStands(world, old(tick), p, orgs, home, actor, owner, extra, session)
    {
      ghost var (a, b) := (AllMemberLocks(orgs, home, actor, extra), SessionLock(session));
      ok := LockAllMembers(orgs, home, actor, extra);
      if !ok {
        RanFirst(old(tick), tick, old(locks), locks, a, b);
        return;
      }
      if home.None? {
        for i := 0 to |extra|
          invariant forall k :: 0 <= k < i ==> extra[k] == owner
        {
          if extra[i] != owner {
            assert extra[i] in extra;
            RanFirst(old(tick), tick, old(locks), locks, a, b);
            return false;
          }
        }
      }
      ghost var (held, mid) := (locks, tick);
      if session != 0 {
        ok := LockSession(p);
      }
      RanBoth(old(tick), mid, tick, old(locks), held, locks, a, b, ok);
    }

    method LockSession(p: Policy.Principal) returns (ok: bool)
      requires p.session != 0
      modifies this
      ensures Ran(old(tick), tick, old(locks), locks, SessionLock(p.session), ok)
      ensures ok <==> SessionStands(world(old(tick)), p, false)
    {
      ok := RequireSession(p, false);
      assert locks == old(locks) + SessionLock(p.session)[..if ok then 1 else 0];
    }

    method LockProjectRow(project: Id, exclusive: bool, owner: Id, home: Option<Id>, live: bool) returns (ok: bool)
      modifies this
      ensures Ran(old(tick), tick, old(locks), locks, [Request(Project(project), exclusive)], ok)
      ensures ok <==> RowStands(world(old(tick)), project, owner, home, live)
    {
      ghost var row := [Request(Project(project), exclusive)];
      var now := world(tick).projects;
      var found := project in now && (live ==> !now[project].deleted);
      Select(Request(Project(project), exclusive), found);
      assert locks == old(locks) + row[..if found then 1 else 0];
      ok := found && now[project].owner == owner && now[project].org == home;
    }

    method ActorOf(p: Policy.Principal) returns (ok: bool, actor: Id)
      modifies this
      ensures tick == (if p.kind == Policy.APIKey then old(tick) + 1 else old(tick)) && locks == old(locks)
      ensures ActorIn(p, world(old(tick)).apiKeys) == if ok then Some(actor) else None
    {
      actor := p.subject;
      if p.kind != Policy.Human && p.kind != Policy.OAuthDelegation {
        actor := p.actor;
        if p.kind == Policy.APIKey {
          var keys := world(tick).apiKeys;
          tick := tick + 1;
          if p.subject !in keys {
            return false, 0;
          }
          actor := keys[p.subject];
        }
      }
      return true, actor;
    }

    method LockRowAndAbove(
        p: Policy.Principal, orgs: seq<Id>, actor: Id, owner: Id, home: Option<Id>, session: Id,
        project: Id, exclusive: bool, extra: seq<Id>)
      returns (ok: bool)
      requires session != 0 ==> session == p.session
      modifies this
      ensures Ran(old(tick), tick, old(locks), locks, [Request(Project(project), exclusive)]
                  + (AllMemberLocks(orgs, home, actor, extra) + SessionLock(session)), ok)
      ensures ok <==> && RowStands(world(old(tick)), project, owner, home, true)
                      && AboveStands(world, old(tick) + 1, p, orgs, home, actor, owner, extra, session)
    {
      ghost var row := [Request(Project(project), exclusive)];
      ghost var above := AllMemberLocks(orgs, home, actor, extra) + SessionLock(session);
      ok := LockProjectRow(project, exclusive, owner, home, true);
      if !ok {
        RanFirst(old(tick), tick, old(locks), locks, row, above);
        return;
      }
      ghost var (held, mid) := (locks, tick);
      ok := LockAbove(p, orgs, home, actor, owner, extra, session);
      RanBoth(old(tick), mid, tick, old(locks), held, locks, row, above, ok);
    }

    method LockParts(
        p: Policy.Principal, ids: seq<Id>, orgs: seq<Id>, usable: bool, actor: Id, owner: Id, home: Option<Id>,
        session: Id, project: Id, exclusive: bool, extra: seq<Id>)
      returns (ok: bool)
      requires session != 0 ==> session == p.session
      modifies this
      ensures Ran(old(tick), tick, old(locks), locks, (SubjectPlan(ids, false) + OrgLocks(orgs))
                  + ([Request(Project(project), exclusive)]
                     + (AllMemberLocks(orgs, home, actor, extra) + SessionLock(session))), ok)
      ensures var at := old(tick) + |SubjectPlan(ids, false) + OrgLocks(orgs)|;
              ok <==> && usable && BelowStands(world, old(tick), ids, orgs)
                      && RowStands(world(at), project, owner, home, true)
                      && AboveStands(world, at + 1, p, orgs, home, actor, owner, extra, session)
    {
      ghost var below := SubjectPlan(ids, false) + OrgLocks(orgs);
      ghost var above := AllMemberLocks(orgs, home, actor, extra) + SessionLock(session);
      ghost var row := [Request(Project(project), exclusive)];
      ok := LockBelow(ids, orgs, usable);
      if !ok {
        RanFirst(old(tick), tick, old(locks), locks, below, row + above);
        return;
      }
      ghost var (held, at) := (locks, tick);
      assert at == old(tick) + |below|;
      ok := LockRowAndAbove(p, orgs, actor, owner, home, session, project, exclusive, extra);
      RanBoth(old(tick), at, tick, old(locks), held, locks, below, row + above, ok);
    }

    method LockDiscovered(
        p: Policy.Principal, actor: Id, owner: Id, home: Option<Id>, session: Id,
        project: Id, exclusive: bool, extra: seq<Id>, organizations: seq<Id>)
      returns (ok: bool)
      requires session != 0 ==> session == p.session
      modifies this
      ensures Ran(old(tick), tick, old(locks), locks,
                  ProjectPlan(actor, owner, home, extra, organizations, project, exclusive, session), ok)
      ensures ok <==> DiscoveredStands(world, old(tick), p, actor, owner, home, extra, organizations, project, session)
    {
      ghost var below, above := PlanParts(actor, owner, home, extra, organizations, project, exclusive, session);
      ok := LockParts(p, [actor, owner] + extra, OrgSet(organizations, home), 0 !in organizations,
                      actor, owner, home, session, project, exclusive, extra);
    }

    // Discovery of the owner and organization, and the locks planned for them.
    method DiscoverAndLock(
        p: Policy.Principal, actor: Id, project: Id, exclusive: bool, extra: seq<Id>, organizations: seq<Id>)
      returns (ok: bool, ghost plan: seq<Request>, ghost row: ProjectRow)
      modifies this
      ensures Ordered(plan) && Took(old(locks), locks, plan)
      ensures ok <==> DiscoveryStands(world, old(tick), p, actor, project, extra, organizations)
      ensures ok ==> project in world(old(tick)).projects && row == world(old(tick)).projects[project]
      ensures ok ==>
                && plan == ProjectPlan(
                     actor, row.owner, row.org, extra, organizations, project, exclusive, SessionOf(p))
                && locks == old(locks) + plan && tick == old(tick) + 1 + |plan|
    {
      plan, row := [], ProjectRow(0, None, true);
      var seen := world(tick).projects;
      tick := tick + 1;
      if project !in seen || seen[project].deleted {
        return false, plan, row;
      }
      row := seen[project];
      var (owner, home) := (seen[project].owner, seen[project].org);
      var session := SessionOf(p);
      plan := ProjectPlan(actor, owner, home, extra, organizations, project, exclusive, session);
      ProjectPlanOrdered(actor, owner, home, extra, organizations, project, exclusive, session);
      ok := LockDiscovered(p, actor, owner, home, session, project, exclusive, extra, organizations);
    }

    method SecureProject(
        p: Policy.Principal, actor: Id, project: Id, exclusive: bool, extra: seq<Id>, organizations: seq<Id>)
      returns (ok: bool, ghost plan: seq<Request>, ghost at: nat)
      modifies this
      ensures Ordered(plan) && Took(old(locks), locks, plan)
      ensures ok <==> DiscoveryStands(world, old(tick), p, actor, project, extra, organizations)
      ensures ok ==> locks == old(locks) + plan && tick == old(tick) + 1 + |plan|
      ensures ok ==> Secured(world, old(tick) + 1, at, plan, p, actor, project, exclusive, extra, organizations)
    {
      at := 0;
      ghost var row;
      ok, plan, row := DiscoverAndLock(p, actor, project, exclusive, extra, organizations);
      if ok {
        at := DiscoveryIsSecured(world, old(tick), p, actor, extra, organizations, project, exclusive, plan, row);
      }
    }

    // It succeeds exactly when its statements find what ProjectAdmits asks. On success `at`
    // is the statement that locked the project row, and the plan is the one for the owner
    // and organization that the row had then.
    method LockProjectOrganizations(
        p: Policy.Principal, project: Id, exclusive: bool, extra: seq<Id>, organizations: seq<Id>)
      returns (ok: bool, ghost plan: seq<Request>, ghost at: nat)
      modifies this
      ensures Ordered(plan) && Took(old(locks), locks, plan)
      ensures ok <==> ProjectAdmits(world, old(tick), p, project, extra, organizations)
      ensures ok ==> locks == old(locks) + plan && old(tick) < tick - |plan|
      ensures ok ==>
                var actor := ActorIn(p, world(old(tick)).apiKeys);
                && actor.Some?
                && Secured(world, tick - |plan|, at, plan, p, actor.value, project, exclusive, extra, organizations)
    {
      plan, at := [], 0;
      var actor;
      ok, actor := ActorOf(p);
      if !ok {
        return;
      }
      ok, plan, at := SecureProject(p, actor, project, exclusive, extra, organizations);
    }

    method LockHome(home: Option<Id>) returns (ok: bool)
      modifies this
      ensures Ran(old(tick), tick, old(locks), locks, HomeLock(home), ok)
      ensures ok <==> Found(world, old(tick), HomeLock(home))
    {
      assert locks == old(locks) + HomeLock(home)[..0];
      if home.None? {
        return true;
      }
      ok := home.value in world(tick).orgs;
      Select(Share(Org(home.value)), ok);
      assert locks == old(locks) + HomeLock(home)[..if ok then 1 else 0];
      OneFound(world, old(tick), HomeLock(home)[0]);
    }

    method LockSubjectsAndHome(ids: seq<Id>, home: Option<Id>) returns (ok: bool)
      modifies this
      ensures Ran(old(tick), tick, old(locks), locks, SubjectPlan(ids, false) + HomeLock(home), ok)
      ensures ok <==> && 0 !in ids && Found(world, old(tick), SubjectPlan(ids, false))
                      && Found(world, old(tick) + |SubjectPlan(ids, false)|, HomeLock(home))
    {
      ghost var (a, b) := (SubjectPlan(ids, false), HomeLock(home));
      ok := LockSubjects(ids, false);
      if !ok {
        RanFirst(old(tick), tick, old(locks), locks, a, b);
        return;
      }
      ghost var (held, mid) := (locks, tick);
      ok := LockHome(home);
      RanBoth(old(tick), mid, tick, old(locks), held, locks, a, b, ok);
    }

    // Locks the project exclusively; a member state that does not exist is skipped.
    method LockProjectMaintenance(project: Id, extra: seq<Id>)
      returns (ok: bool, ghost plan: seq<Request>, ghost at: nat)
      modifies this
      ensures Ordered(plan) && Took(old(locks), locks, plan)
      ensures ok <==> MaintenanceAdmits(world, old(tick), project, extra)
      ensures ok ==> locks == old(locks) + plan && LocksProjectAt(plan, old(tick) + 1, at, project, true)
      ensures ok ==> at < tick && project in world(at).projects
                     && var row := world(at).projects[project];
                     MaintainedFor(world, at, plan, row.owner, row.org, extra, project)
    {
      plan, at := [], 0;
      var seen := world(tick).projects;
      tick := tick + 1;
      if project !in seen {
        return false, plan, at;
      }
      ok, plan, at := SecureMaintenance(seen[project].owner, seen[project].org, extra, project);
    }

    method SecureMaintenance(owner: Id, home: Option<Id>, extra: seq<Id>, project: Id)
      returns (ok: bool, ghost plan: seq<Request>, ghost at: nat)
      modifies this
      ensures Ordered(plan) && Took(old(locks), locks, plan)
      ensures ok <==> MaintenanceStands(world, old(tick), owner, home, extra, project)
      ensures ok ==> locks == old(locks) + plan && LocksProjectAt(plan, old(tick), at, project, true)
      ensures ok ==> at < tick && RowStands(world(at), project, owner, home, false)
      ensures ok ==> MaintainedFor(world, at, plan, owner, home, extra, project)
    {
      at := old(tick) + |MaintenanceBelow(owner, home, extra)|;
      ok, plan := LockMaintained(owner, home, extra, project);
      if ok {
        plan := LockRest(owner, home, extra, project, old(locks));
      }
    }

    // The member states, after everything else is locked on top of `before`.
    method LockRest(owner: Id, home: Option<Id>, extra: seq<Id>, project: Id, ghost before: seq<Request>)
      returns (ghost plan: seq<Request>)
      requires tick > 0 && locks == before + MaintenancePlan(owner, home, extra, project, [])
      modifies this
      ensures Ordered(plan) && Took(before, locks, plan) && locks == before + plan && tick >= old(tick)
      ensures var n := |MaintenanceBelow(owner, home, extra)|; n < |plan| && plan[n] == Request(Project(project), true)
      ensures MaintainedFor(world, old(tick) - 1, plan, owner, home, extra, project)
    {
      ghost var present: seq<Id> := [];
      if home.Some? {
        present := LockStates(home.value, [owner] + extra);
        StatesComeLast(before, old(locks), owner, home, extra, project, present);
      }
      plan := MaintenancePlan(owner, home, extra, project, present);
      MaintenancePlanOrdered(owner, home, extra, project, present);
      TookAll(before, plan);
      assert MaintainedWith(world, old(tick) - 1, plan, owner, home, extra, project, present);
    }

    // Everything but the member states.
    method LockMaintained(owner: Id, home: Option<Id>, extra: seq<Id>, project: Id)
      returns (ok: bool, ghost plan: seq<Request>)
      modifies this
      ensures plan == MaintenancePlan(owner, home, extra, project, []) && Ordered(plan)
      ensures Ran(old(tick), tick, old(locks), locks, plan, ok)
      ensures ok <==> MaintenanceStands(world, old(tick), owner, home, extra, project)
      ensures ok ==> tick == old(tick) + |MaintenanceBelow(owner, home, extra)| + 1
    {
      var ids := [owner] + extra;
      ghost var row := [Request(Project(project), true)];
      ghost var below := MaintenanceBelow(owner, home, extra);
      plan := MaintenancePlan(owner, home, extra, project, []);
      assert plan == below + row;
      MaintenancePlanOrdered(owner, home, extra, project, []);
      ok := LockSubjectsAndHome(ids, home);
      if !ok {
        RanFirst(old(tick), tick, old(locks), locks, below, row);
        return;
      }
      ghost var (held, at) := (locks, tick);
      ok := LockProjectRow(project, true, owner, home, false);
      RanBoth(old(tick), at, tick, old(locks), held, locks, below, row, ok);
    }

    method LockStates(org: Id, ids: seq<Id>) returns (ghost present: seq<Id>)
      modifies this
      ensures tick >= old(tick) && StrictlyUp(present) && locks == old(locks) + StateLocks(org, present)
      ensures HaveStates(world, old(tick), org, Keys(Elements(ids)), present)
    {
      var users := Keys(Elements(ids));
      KeysAreTheSet(Elements(ids));
      present := [];
      for i := 0 to |users|
        invariant tick == old(tick) + i && StrictlyUp(present) && locks == old(locks) + StateLocks(org, present)
        invariant forall x :: x in present ==> x in users[..i]
        invariant forall k :: 0 <= k < i ==> (users[k] in present <==> (org, users[k]) in world(old(tick) + k).states)
      {
        var found := (org, users[i]) in world(tick).states;
        Select(Share(MemberState(org, users[i])), found);
        OneMoreState(users, i, present);
        if found {
          present := present + [users[i]];
        }
      }
    }
  }

  function HumanOf(user: Id, session: Id): Policy.Principal {
    Policy.Principal(Policy.Human, user, user, 0, 0, None, session, 0, "")
  }

  lemma OneSubject(user: Id, exclusive: bool)
    ensures SubjectPlan([user], exclusive) == [Request(User(user), exclusive)]
  {
    KeysAreTheSet({user});
    assert Elements([user]) == {user};
    var q := Keys({user});
    assert user in q && q[0] in q;
    assert {user} - {q[0]} == {};
    assert q == [q[0]] + Keys({user} - {q[0]});
  }

  lemma MemberFound(world: nat -> Snapshot, from: nat, org: Id, user: Id)
    ensures Found(world, from, MemberLock(org, user))
            <==> StateStands(world(from), org, user) && (org, user) in world(from + 1).members
  {
    var plan := MemberLock(org, user);
    assert FindsAt(world, from, plan, 0) <==> StateStands(world(from), org, user);
    assert FindsAt(world, from, plan, 1) <==> (org, user) in world(from + 1).members;
  }

  lemma OneFound(world: nat -> Snapshot, from: nat, r: Request)
    ensures Found(world, from, [r]) <==> Finds(world(from), r)
  {
    assert FindsAt(world, from, [r], 0) <==> Finds(world(from), r);
  }

  lemma FiveFoundIff(
      world: nat -> Snapshot, t: nat, a: seq<Request>, b: seq<Request>, r: Request, m: seq<Request>, s: seq<Request>)
    ensures Found(world, t, a + b + [r] + m + s) <==>
            && Found(world, t, a) && Found(world, t + |a|, b) && Finds(world(t + |a + b|), r)
            && Found(world, t + |a + b| + 1, m) && Found(world, t + |a + b| + 1 + |m|, s)
  {
    FoundSplits(world, t, a + b + [r] + m, s);
    FoundSplits(world, t, a + b + [r], m);
    FoundSplits(world, t, a + b, [r]);
    FoundSplits(world, t, a, b);
    OneFound(world, t + |a + b|, r);
  }

  lemma FiveFound(
      world: nat -> Snapshot, t: nat, a: seq<Request>, b: seq<Request>, r: Request, m: seq<Request>, s: seq<Request>)
    requires Found(world, t, a) && Found(world, t + |a|, b) && Finds(world(t + |a + b|), r)
    requires Found(world, t + |a + b| + 1, m) && Found(world, t + |a + b| + 1 + |m|, s)
    ensures Found(world, t, a + b + [r] + m + s)
  {
    FiveFoundIff(world, t, a, b, r, m, s);
  }

  lemma SessionFound(world: nat -> Snapshot, t: nat, p: Policy.Principal)
    requires SessionOf(p) != 0 ==> SessionStands(world(t), p, false)
    ensures Found(world, t, SessionLock(SessionOf(p)))
  {
    if SessionOf(p) != 0 { OneFound(world, t, Share(Session(SessionOf(p)))); }
  }

  lemma DiscoveryIsSecured(
      world: nat -> Snapshot, t: nat, p: Policy.Principal, actor: Id, extra: seq<Id>, organizations: seq<Id>,
      project: Id, exclusive: bool, plan: seq<Request>, row: ProjectRow)
    returns (at: nat)
    requires DiscoveryStands(world, t, p, actor, project, extra, organizations)
    requires row == world(t).projects[project]
    requires plan == ProjectPlan(actor, row.owner, row.org, extra, organizations, project, exclusive, SessionOf(p))
    ensures Secured(world, t + 1, at, plan, p, actor, project, exclusive, extra, organizations)
  {
    at := t + 1 + |BelowPlan(actor, row.owner, row.org, extra, organizations)|;
    DiscoveredIsSecured(world, t + 1, p, actor, row.owner, row.org, extra, organizations, project, exclusive);
  }

  // A successful project lock planned for the owner and organization of the row it locked.
  lemma DiscoveredIsSecured(
      world: nat -> Snapshot, t: nat, p: Policy.Principal, actor: Id, owner: Id, home: Option<Id>,
      extra: seq<Id>, organizations: seq<Id>, project: Id, exclusive: bool)
    requires DiscoveredStands(world, t, p, actor, owner, home, extra, organizations, project, SessionOf(p))
    ensures var plan := ProjectPlan(actor, owner, home, extra, organizations, project, exclusive, SessionOf(p));
            var at := t + |BelowPlan(actor, owner, home, extra, organizations)|;
            Secured(world, t, at, plan, p, actor, project, exclusive, extra, organizations)
  {
    var orgs := OrgSet(organizations, home);
    var (a, b) := (SubjectPlan([actor, owner] + extra, false), OrgLocks(orgs));
    var (r, m) := (Request(Project(project), exclusive), AllMemberLocks(orgs, home, actor, extra));
    var last := t + |a + b| + 1 + |m|;
    SessionFound(world, last, p);
    FiveFound(world, t, a, b, r, m, SessionLock(SessionOf(p)));
    var plan := ProjectPlan(actor, owner, home, extra, organizations, project, exclusive, SessionOf(p));
    assert plan[|a + b|] == r;
    forall x | x in extra ensures x != 0 { assert x in [actor, owner] + extra; }
  }

  // ---------------------------------------------------------------- the conditions in words

  lemma FindingInWords(w: Snapshot, r: Request, org: Id, user: Id, role: string)
    ensures StateStands(w, org, user) <==>
            (org, user) in w.states && w.states[(org, user)].active && w.states[(org, user)].epoch >= 1
    ensures HasRole(w, org, user, role) <==>
            (org, user) in w.members && (role == "" || Policy.RoleAllows(w.members[(org, user)], role))
    ensures Finds(w, r) <==>
            match r.res
            case User(id) => id in w.users
            case Org(id) => id in w.orgs
            case Project(id) => id in w.projects
            case MemberState(o, u) => StateStands(w, o, u)
            case Member(o, u) => (o, u) in w.members
            case Session(id) => id in w.sessions && !w.sessions[id].revoked && w.now < w.sessions[id].expires
  {}

  lemma SessionInWords(w: Snapshot, p: Policy.Principal, recent: bool)
    ensures SessionStands(w, p, recent) <==>
            && p.kind in {Policy.Human, Policy.OAuthDelegation} && p.subject != 0 && p.session != 0
            && (p.actor == 0 || p.actor == p.subject) && p.session in w.sessions
            && var s := w.sessions[p.session];
            && s.user == p.subject && !s.revoked && w.now < s.expires
            && (recent ==> w.now < s.created + 600_000_000_000)
  {}

  // The statement that locks the project, in a plan that starts at t.
  function ProjectTurn(t: nat, actor: Id, owner: Id, home: Option<Id>, extra: seq<Id>, organizations: seq<Id>): nat {
    t + |SubjectPlan([actor, owner] + extra, false)| + |OrgLocks(OrgSet(organizations, home))|
  }

  // With the owner and organization discovered, a project lock succeeds exactly if none of
  // the ids is nil, every row of its plan is found when its turn comes, the project is then
  // as discovered, the session is the caller's, and others than the owner are named only
  // in an organization.
  lemma DiscoveredInWords(
      world: nat -> Snapshot, t: nat, p: Policy.Principal, actor: Id, owner: Id, home: Option<Id>,
      extra: seq<Id>, organizations: seq<Id>, project: Id, exclusive: bool)
    ensures var session := if p.kind in {Policy.Human, Policy.OAuthDelegation} then p.session else 0;
            var plan := ProjectPlan(actor, owner, home, extra, organizations, project, exclusive, session);
            var row := world(ProjectTurn(t, actor, owner, home, extra, organizations)).projects;
            DiscoveredStands(world, t, p, actor, owner, home, extra, organizations, project, SessionOf(p)) <==>
            && actor != 0 && owner != 0 && 0 !in extra && 0 !in organizations && Found(world, t, plan)
            && project in row && row[project] == ProjectRow(owner, home, false)
            && (home.None? ==> forall x :: x in extra ==> x == owner)
            && (session != 0 ==> SessionStands(world(t + |plan| - 1), p, false))
  {
    var orgs := OrgSet(organizations, home);
    var (a, b) := (SubjectPlan([actor, owner] + extra, false), OrgLocks(orgs));
    var (r, m) := (Request(Project(project), exclusive), AllMemberLocks(orgs, home, actor, extra));
    var plan := ProjectPlan(actor, owner, home, extra, organizations, project, exclusive, SessionOf(p));
    DiscoveredInParts(world, t, p, actor, owner, home, extra, organizations, project, a, b, m);
    PartsInWords(world, t, p, a, b, r, m, plan);
    NilInWords(actor, owner, extra);
  }

  lemma PartsInWords(
      world: nat -> Snapshot, t: nat, p: Policy.Principal,
      a: seq<Request>, b: seq<Request>, r: Request, m: seq<Request>, plan: seq<Request>)
    requires plan == a + b + [r] + m + SessionLock(SessionOf(p))
    ensures var (session, at) := (SessionOf(p), t + |a + b|);
            (&& Found(world, t, a) && Found(world, t + |a|, b) && Finds(world(at), r) && Found(world, at + 1, m)
             && (session != 0 ==> SessionStands(world(at + 1 + |m|), p, false)))
            <==> Found(world, t, plan) && (session != 0 ==> SessionStands(world(t + |plan| - 1), p, false))
  {
    var last := t + |a + b| + 1 + |m|;
    FiveFoundIff(world, t, a, b, r, m, SessionLock(SessionOf(p)));
    if SessionOf(p) != 0 ==> SessionStands(world(last), p, false) { SessionFound(world, last, p); }
  }

  lemma BelowInParts(world: nat -> Snapshot, t: nat, ids: seq<Id>, orgs: seq<Id>, a: seq<Request>, b: seq<Request>)
    requires a == SubjectPlan(ids, false) && b == OrgLocks(orgs)
    ensures BelowStands(world, t, ids, orgs) <==> 0 !in ids && Found(world, t, a) && Found(world, t + |a|, b)
  {}

  lemma DiscoveredUnfolds(
      world: nat -> Snapshot, t: nat, p: Policy.Principal, actor: Id, owner: Id, home: Option<Id>,
      extra: seq<Id>, organizations: seq<Id>, project: Id, session: Id, orgs: seq<Id>, at: nat)
    requires orgs == OrgSet(organizations, home)
    requires at == t + |BelowPlan(actor, owner, home, extra, organizations)|
    ensures DiscoveredStands(world, t, p, actor, owner, home, extra, organizations, project, session) <==>
            && 0 !in organizations && BelowStands(world, t, [actor, owner] + extra, orgs)
            && RowStands(world(at), project, owner, home, true)
            && AboveStands(world, at + 1, p, orgs, home, actor, owner, extra, session)
  {}

  lemma DiscoveredInParts(
      world: nat -> Snapshot, t: nat, p: Policy.Principal, actor: Id, owner: Id, home: Option<Id>,
      extra: seq<Id>, organizations: seq<Id>, project: Id, a: seq<Request>, b: seq<Request>, m: seq<Request>)
    requires a == SubjectPlan([actor, owner] + extra, false) && b == OrgLocks(OrgSet(organizations, home))
    requires m == AllMemberLocks(OrgSet(organizations, home), home, actor, extra)
    ensures var (session, at) := (SessionOf(p), t + |a + b|);
            DiscoveredStands(world, t, p, actor, owner, home, extra, organizations, project, session) <==>
            && 0 !in organizations && 0 !in [actor, owner] + extra && OwnerOnly(home, owner, extra)
            && RowStands(world(at), project, owner, home, true)
            && Found(world, t, a) && Found(world, t + |a|, b) && Found(world, at + 1, m)
            && (session != 0 ==> SessionStands(world(at + 1 + |m|), p, false))
  {
    var (orgs, at) := (OrgSet(organizations, home), t + |a + b|);
    BelowInParts(world, t, [actor, owner] + extra, orgs, a, b);
    DiscoveredUnfolds(world, t, p, actor, owner, home, extra, organizations, project, SessionOf(p), orgs, at);
  }

  lemma NilInWords(actor: Id, owner: Id, extra: seq<Id>)
    ensures 0 !in [actor, owner] + extra <==> actor != 0 && owner != 0 && 0 !in extra
  {
    var ids := [actor, owner] + extra;
    assert actor == ids[0] && owner == ids[1] && ids[2..] == extra;
  }

  // The actor is the principal, the user of its key, or whom it names; the discovery comes
  // after the look-up of a key's user.
  lemma ProjectAdmitsInWords(
      world: nat -> Snapshot, t: nat, p: Policy.Principal, project: Id, extra: seq<Id>, organizations: seq<Id>)
    ensures var d := if p.kind == Policy.APIKey then t + 1 else t;
            ProjectAdmits(world, t, p, project, extra, organizations) <==>
            && (p.kind == Policy.APIKey ==> p.subject in world(t).apiKeys)
            && project in world(d).projects && !world(d).projects[project].deleted
            && var actor := if p.kind in {Policy.Human, Policy.OAuthDelegation} then p.subject
                            else if p.kind == Policy.APIKey then world(t).apiKeys[p.subject] else p.actor;
            var row := world(d).projects[project];
            DiscoveredStands(world, d + 1, p, actor, row.owner, row.org, extra, organizations, project, SessionOf(p))
  {}

  // Maintenance succeeds exactly if no id is nil, the users and the organization are found,
  // and the project is still the discovered one's; it may be deleted.
  lemma MaintenanceAdmitsInWords(world: nat -> Snapshot, t: nat, project: Id, extra: seq<Id>)
    ensures MaintenanceAdmits(world, t, project, extra) <==>
            && project in world(t).projects
            && var (owner, home) := (world(t).projects[project].owner, world(t).projects[project].org);
            var plan := SubjectPlan([owner] + extra, false) + HomeLock(home);
            var rows := world(t + 1 + |plan|).projects;
            && owner != 0 && 0 !in extra && Found(world, t + 1, plan)
            && project in rows && rows[project].owner == owner && rows[project].org == home
  {
    if project in world(t).projects {
      var (owner, home) := (world(t).projects[project].owner, world(t).projects[project].org);
      var ids := [owner] + extra;
      assert owner == ids[0] && ids[1..] == extra;
      FoundSplits(world, t + 1, SubjectPlan(ids, false), HomeLock(home));
    }
  }

  // Behind the subjects' locks everything RequireOrg takes is in order.
  lemma BehindSubjects(before: seq<Request>, after: seq<Request>, org: Id, user: Id, session: Id)
    requires Took(before, after, OrgPlan(org, user, session))
    ensures forall ids, exclusive :: Ordered(SubjectPlan(ids, exclusive) + OrgPlan(org, user, session))
    ensures forall ids, exclusive :: before == SubjectPlan(ids, exclusive) ==> Ordered(after)
  {
    forall ids, exclusive ensures Ordered(SubjectPlan(ids, exclusive) + OrgPlan(org, user, session)) {
      OrgPlanOrdered(ids, exclusive, org, user, session);
    }
    forall ids, exclusive | before == SubjectPlan(ids, exclusive) ensures Ordered(after) {
      OrgPlanOrdered(ids, exclusive, org, user, session);
      TookMore([], before, after, before, OrgPlan(org, user, session));
      TookIsOrdered([], after, before + OrgPlan(org, user, session));
    }
  }

  lemma StatesComeLast(
      before: seq<Request>, held: seq<Request>,
      owner: Id, home: Option<Id>, extra: seq<Id>, project: Id, present: seq<Id>)
    requires home.Some? && held == before + MaintenancePlan(owner, home, extra, project, [])
    ensures var (plan, after) :=
        (MaintenancePlan(owner, home, extra, project, present), held + StateLocks(home.value, present));
            after == before + plan && Took(before, after, plan)
  {
    var plan := MaintenancePlan(owner, home, extra, project, present);
    assert plan == MaintenancePlan(owner, home, extra, project, []) + StateLocks(home.value, present);
    TookAll(before, plan);
  }

  lemma OneMoreState(users: seq<Id>, i: nat, present: seq<Id>)
    requires StrictlyUp(users) && i < |users| && StrictlyUp(present) && forall x :: x in present ==> x in users[..i]
    ensures users[i] !in present && StrictlyUp(present + [users[i]])
    ensures forall x :: x in present + [users[i]] ==> x in users[..i + 1]
    ensures forall k :: 0 <= k < i ==> (users[k] in present + [users[i]] <==> users[k] in present)
  {
    forall x | x in present ensures x < users[i] && x in users[..i + 1] {
      EarlierIsLower(users, i, x);
      assert users[..i + 1] == users[..i] + [users[i]];
    }
    forall k | 0 <= k < |present| ensures present[k] < users[i] { assert present[k] in present; }
  }

  lemma EarlierIsLower(users: seq<Id>, i: nat, x: Id)
    requires StrictlyUp(users) && i < |users| && x in users[..i]
    ensures x < users[i]
  {
    var m: nat :| m < |users[..i]| && users[..i][m] == x;
    assert users[m] == x;
  }

  lemma PlanParts(
      actor: Id, owner: Id, home: Option<Id>, extra: seq<Id>, organizations: seq<Id>,
      project: Id, exclusive: bool, session: Id)
    returns (below: seq<Request>, above: seq<Request>)
    ensures below == BelowPlan(actor, owner, home, extra, organizations)
    ensures above == [Request(Project(project), exclusive)]
                     + (AllMemberLocks(OrgSet(organizations, home), home, actor, extra) + SessionLock(session))
    ensures ProjectPlan(actor, owner, home, extra, organizations, project, exclusive, session) == below + above
  {
    below := BelowPlan(actor, owner, home, extra, organizations);
    var members := AllMemberLocks(OrgSet(organizations, home), home, actor, extra);
    above := [Request(Project(project), exclusive)] + (members + SessionLock(session));
  }

  lemma OneOrgMore(orgs: seq<Id>, home: Option<Id>, actor: Id, extra: seq<Id>, i: nat)
    requires i < |orgs|
    ensures var last := MemberLocks(orgs[i], MembersOf(orgs[i], home, actor, extra));
            var next := AllMemberLocks(orgs[..i], home, actor, extra) + last;
            AllMemberLocks(orgs[..i + 1], home, actor, extra) == next <= AllMemberLocks(orgs, home, actor, extra)
  {
    assert orgs[..i + 1][..i] == orgs[..i];
    AllMemberLocksGrow(orgs, home, actor, extra, i + 1);
  }

  lemma {:induction false} MemberLocksGrow(org: Id, users: seq<Id>, n: nat)
    requires n <= |users|
    ensures MemberLocks(org, users[..n]) <= MemberLocks(org, users)
    decreases |users|
  {
    if n < |users| {
      var m := |users| - 1;
      MemberLocksGrow(org, users[..m], n);
      assert users[..m][..n] == users[..n];
    } else {
      assert users[..n] == users;
    }
  }

  lemma {:induction false} AllMemberLocksGrow(orgs: seq<Id>, home: Option<Id>, actor: Id, extra: seq<Id>, n: nat)
    requires n <= |orgs|
    ensures AllMemberLocks(orgs[..n], home, actor, extra) <= AllMemberLocks(orgs, home, actor, extra)
    decreases |orgs|
  {
    if n < |orgs| {
      var m := |orgs| - 1;
      AllMemberLocksGrow(orgs[..m], home, actor, extra, n);
      assert orgs[..m][..n] == orgs[..n];
    } else {
      assert orgs[..n] == orgs;
    }
  }
}
