/**
 Authorization: backend/internal/policy/policy.go over the authority that
 backend/internal/repository/authority_store.go derives from stored rows.
 */
module Policy {
  import opened Wrappers
  import opened Glob

  // A UUID; 0 is uuid.Nil.
  type Id = nat

  datatype Kind = Human | APIKey | AgentToken | Workload | OAuthDelegation

  datatype Principal = Principal(
    kind: Kind, subject: Id, actor: Id, tenant: Id, parentGrant: Id, expires: Option<int>,
    session: Id, lease: Id, token: string)

  datatype Action =
    | ReadMetadata | ReadValue | WriteSecret | DeleteSecret | RestoreSecret
    | ApprovePromotion | InvokeTool | IssueGrant | ManageProject

  datatype Resource = Resource(tenant: Id, project: Id, environment: string, kind: string, key: string)

  datatype Authority = Authority(
    actor: Id, tenant: Id, role: string, project: Id, environment: string, scopes: seq<string>, expires: Option<int>)

  datatype Decision = Decision(allowed: bool, validUntil: Option<int>)

  const DENY := Decision(false, None)

  // ---------------------------------------------------------------- roles and scopes

  function Level(role: string): nat {
    if role == "viewer" then 1 else if role == "editor" then 2
    else if role == "promoter" then 3 else if role == "admin" then 4 else 0
  }

  predicate RoleAllows(role: string, required: string) {
    Level(role) > 0 && Level(required) > 0 && Level(role) >= Level(required)
  }

  // strings.Cut(scope, ":").
  function Cut(s: string): (string, string) {
    if s == "" then ("", "")
    else if s[0] == ':' then ("", s[1..])
    else
      var (a, b) := Cut(s[1..]);
      ([s[0]] + a, b)
  }

  ghost predicate ScopeAllows(scope: string, action: string, key: string) {
    var (verb, pattern) := Cut(scope);
    (verb == action || (verb == "write" && action == "delete")) && KeyMatches(pattern, key)
  }

  ghost predicate ScopesAllow(scopes: seq<string>, action: string, key: string) {
    exists i :: 0 <= i < |scopes| && ScopeAllows(scopes[i], action, key)
  }

  method LegacyAllows(scopes: seq<string>, action: string, key: string) returns (allowed: bool)
    ensures allowed <==> ScopesAllow(scopes, action, key)
  {
    for i := 0 to |scopes|
      invariant forall j :: 0 <= j < i ==> !ScopeAllows(scopes[j], action, key)
    {
      var (verb, pattern) := Cut(scopes[i]);
      if verb == action || (verb == "write" && action == "delete") {
        var matches := MatchKey(pattern, key);
        if matches {
          return true;
        }
      }
    }
    return false;
  }

  predicate Unbounded(scopes: seq<string>) { "read" in scopes || "read:*" in scopes }

  ghost predicate LeaseKeyOk(scopes: seq<string>, key: string) {
    && 0 < |key| <= 255
    && (if '*' in key then key == "*" && Unbounded(scopes) else ScopesAllow(scopes, "read", key))
  }

  ghost predicate LeaseOk(scopes: seq<string>, keys: seq<string>) {
    if keys == [] then Unbounded(scopes) else forall i :: 0 <= i < |keys| ==> LeaseKeyOk(scopes, keys[i])
  }

  method LeaseKeysAllowed(scopes: seq<string>, keys: seq<string>) returns (allowed: bool)
    ensures allowed <==> LeaseOk(scopes, keys)
  {
    var all := false;
    for i := 0 to |scopes|
      invariant all <==> exists j :: 0 <= j < i && (scopes[j] == "read" || scopes[j] == "read:*")
    {
      if scopes[i] == "read" || scopes[i] == "read:*" {
        all := true;
      }
    }
    assert all <==> Unbounded(scopes);
    if |keys| == 0 {
      return all;
    }
    for i := 0 to |keys|
      invariant forall j :: 0 <= j < i ==> LeaseKeyOk(scopes, keys[j])
    {
      var key := keys[i];
      if key == "" || |key| > 255 {
        return false;
      }
      if '*' in key {
        if key != "*" || !all {
          return false;
        }
      } else {
        var allows := LegacyAllows(scopes, "read", key);
        if !allows {
          return false;
        }
      }
    }
    return true;
  }

  // ---------------------------------------------------------------- stored authority

  datatype ApiKeyRow = ApiKeyRow(user: Id, project: Id, scopes: seq<string>, environment: Option<string>,
      expires: Option<int>)
  datatype IssuanceRow = IssuanceRow(lease: Id, user: Id, project: Id, expires: int)
  datatype LeaseRow = LeaseRow(project: Id, apiKey: Id, environment: string, keys: seq<string>, expires: int,
      revoked: bool)
  datatype ProjectRow = ProjectRow(owner: Id, org: Option<Id>, deleted: bool)
  datatype SessionRow = SessionRow(user: Id, revoked: bool, expires: int)

  // The join of an OAuth family with its consent and client.
  datatype GrantRow = GrantRow(user: Id, session: Id, expires: int, revoked: bool, clientEnabled: bool)

  datatype Db = Db(
    apiKeys: map<Id, ApiKeyRow>, issuance: map<string, IssuanceRow>, leases: map<Id, LeaseRow>,
    denylist: map<string, int>, projects: map<Id, ProjectRow>, members: map<(Id, Id), string>,
    sessions: map<Id, SessionRow>, grants: map<Id, GrantRow>)

  predicate Ended(expires: Option<int>, now: int) { expires.Some? && expires.value <= now }

  predicate SessionLive(db: Db, session: Id, user: Id, now: int) {
    session in db.sessions && db.sessions[session].user == user && !db.sessions[session].revoked
        && db.sessions[session].expires > now
  }

  function Earlier(a: int, b: Option<int>): int { if b.Some? && b.value < a then b.value else a }

  // The joined row of an agent token, found only while the token stands.
  predicate TokenStands(db: Db, p: Principal, now: int) {
    && p.token in db.issuance && db.issuance[p.token].lease == p.lease && db.issuance[p.token].user == p.actor
    && p.lease in db.leases && db.leases[p.lease].project == db.issuance[p.token].project
    && db.leases[p.lease].apiKey in db.apiKeys
    && db.apiKeys[db.leases[p.lease].apiKey].project == db.leases[p.lease].project
    && !db.leases[p.lease].revoked
    && !(p.token in db.denylist && db.denylist[p.token] > now)
  }

  function ReadScopes(keys: seq<string>): seq<string> {
    if keys == [] then ["read"] else seq(|keys|, i requires 0 <= i < |keys| => "read:" + keys[i])
  }

  function EnvironmentOf(key: ApiKeyRow): string { if key.environment.Some? then key.environment.value else "" }

  // The lease, token and key checks of an agent token.
  ghost predicate AgentOk(db: Db, p: Principal, now: int)
    requires TokenStands(db, p, now)
  {
    var lease := db.leases[p.lease];
    var key := db.apiKeys[lease.apiKey];
    && lease.expires > now && db.issuance[p.token].expires > now
    && (key.expires.Some? ==> key.expires.value > now && lease.expires <= key.expires.value)
    && (key.environment.Some? ==> key.environment.value == lease.environment)
    && LeaseOk(key.scopes, lease.keys)
  }

  function RoleIn(db: Db, project: ProjectRow, actor: Id): string {
    if project.org.None? then (if project.owner == actor then "admin" else "")
    else if (project.org.value, actor) in db.members then db.members[(project.org.value, actor)] else ""
  }

  function TenantOf(project: ProjectRow): Id { if project.org.Some? then project.org.value else 0 }

  // The authority before tenant and role are looked up, or nothing on an error.
  ghost function Granted(db: Db, p: Principal, r: Resource, requireSession: bool, now: int): Option<Authority> {
    var base := Authority(p.subject, 0, "", r.project, "", [], None);
    match p.kind
    case Human => if requireSession && (p.session == 0 || !SessionLive(db, p.session, p.subject, now)) then None
        else Some(base)
    case APIKey =>
      if p.subject !in db.apiKeys then None
      else
        var k := db.apiKeys[p.subject];
        Some(Authority(k.user, 0, "", k.project, EnvironmentOf(k), k.scopes, k.expires))
    case OAuthDelegation =>
      if p.parentGrant == 0 || p.session == 0 || p.parentGrant !in db.grants then None
      else
        var g := db.grants[p.parentGrant];
        if g.user != p.subject || g.session != p.session || g.revoked || !g.clientEnabled || g.expires <= now
           || !SessionLive(db, p.session, p.subject, now) then None
        else Some(base.(expires := Some(g.expires)))
    case AgentToken =>
      if p.lease == 0 || p.token == "" || !TokenStands(db, p, now) || !AgentOk(db, p, now) then None
      else
        var lease := db.leases[p.lease];
        var key := db.apiKeys[lease.apiKey];
        var until := Earlier(Earlier(db.issuance[p.token].expires, Some(lease.expires)), key.expires);
        Some(Authority(key.user, 0, "", key.project, lease.environment, ReadScopes(lease.keys), Some(until)))
    case Workload => Some(base)
  }

  ghost function Load(db: Db, p: Principal, r: Resource, requireSession: bool, now: int): Option<Authority> {
    match Granted(db, p, r, requireSession, now)
    case None => None
    case Some(a) =>
      if a.project !in db.projects || db.projects[a.project].deleted then None
      else
        var project := db.projects[a.project];
        Some(a.(tenant := TenantOf(project), role := RoleIn(db, project, a.actor)))
  }

  // ---------------------------------------------------------------- the decision

  function RequiredRole(action: Action): string {
    match action
    case ReadMetadata => "viewer"
    case ReadValue => "editor"
    case IssueGrant => "editor"
    case DeleteSecret => "editor"
    case WriteSecret => "editor"
    case RestoreSecret => "editor"
    case ApprovePromotion => "promoter"
    case ManageProject => "admin"
    case InvokeTool => ""
  }

  function LegacyAction(action: Action): string {
    match action
    case ReadMetadata => "read"
    case ReadValue => "read"
    case IssueGrant => "read"
    case DeleteSecret => "delete"
    case WriteSecret => "write"
    case RestoreSecret => "write"
    case _ => ""
  }

  predicate HasVerb(scopes: seq<string>, verb: string) {
    exists i :: 0 <= i < |scopes| && Cut(scopes[i]).0 == verb
  }

  predicate Admissible(p: Principal, action: Action, r: Resource, now: int) {
    && p.subject != 0 && r.project != 0 && !Ended(p.expires, now) && !p.kind.Workload?
    && (p.kind.OAuthDelegation? ==>
          p.parentGrant != 0 && r.kind == "tool_platform"
              && (action.ReadMetadata? || action.ReadValue? || action.IssueGrant?))
  }

  predicate AuthorityFits(a: Authority, p: Principal, r: Resource, now: int) {
    && a.project == r.project && (r.tenant != 0 ==> a.tenant == r.tenant)
    && (p.tenant != 0 ==> p.tenant == a.tenant) && (p.actor != 0 ==> p.actor == a.actor) && !Ended(a.expires, now)
  }

  ghost predicate ScopeFits(a: Authority, action: Action, r: Resource) {
    && LegacyAction(action) != ""
    && (a.environment != "" ==> a.environment == r.environment)
    && (if r.kind == "secret_collection" then HasVerb(a.scopes, LegacyAction(action))
        else ScopesAllow(a.scopes, LegacyAction(action), r.key))
  }

  ghost function Decide(db: Db, p: Principal, action: Action, r: Resource, requireSession: bool, now: int): Decision {
    if !Admissible(p, action, r, now) then DENY
    else
      match Load(db, p, r, requireSession, now)
      case None => DENY
      case Some(a) =>
        if && AuthorityFits(a, p, r, now)
           && !action.InvokeTool? && RoleAllows(a.role, RequiredRole(action))
           && (p.kind.AgentToken? ==> action.ReadValue? || action.ReadMetadata?)
           && (p.kind.APIKey? || p.kind.AgentToken? ==> ScopeFits(a, action, r))
        then Decision(true, a.expires) else DENY
  }

  // ---------------------------------------------------------------- the evaluator

  class Evaluator {
    const requireSession: bool

    constructor (requireSession: bool)
      ensures this.requireSession == requireSession
    {
      this.requireSession := requireSession;
    }

    // The stages of LoadAuthority, each filling fields of the authority.
    method LoadAuthority(db: Db, p: Principal, r: Resource, now: int) returns (result: Option<Authority>)
      ensures result == Load(db, p, r, requireSession, now)
    {
      var a := Authority(p.subject, 0, "", r.project, "", [], None);
      if p.kind == APIKey {
        if p.subject !in db.apiKeys {
          return None;
        }
        var k := db.apiKeys[p.subject];
        a := a.(actor := k.user, project := k.project, scopes := k.scopes, environment := EnvironmentOf(k),
            expires := k.expires);
      }
      if p.kind == OAuthDelegation {
        if p.parentGrant == 0 || p.session == 0 || p.parentGrant !in db.grants {
          return None;
        }
        var g := db.grants[p.parentGrant];
        if g.user != p.subject || g.session != p.session || g.revoked || !g.clientEnabled || g.expires <= now {
          return None;
        }
        a := a.(expires := Some(g.expires));
      }
      if (p.kind == Human && requireSession) || p.kind == OAuthDelegation {
        if p.session == 0 || !SessionLive(db, p.session, p.subject, now) {
          return None;
        }
      }
      if p.kind == AgentToken {
        if p.lease == 0 || p.token == "" || !TokenStands(db, p, now) {
          return None;
        }
        var issued := db.issuance[p.token];
        var lease := db.leases[p.lease];
        var key := db.apiKeys[lease.apiKey];
        var keysOk := LeaseKeysAllowed(key.scopes, lease.keys);
        if lease.expires <= now || issued.expires <= now
           || (key.expires.Some? && (key.expires.value <= now || lease.expires > key.expires.value))
           || (key.environment.Some? && key.environment.value != lease.environment) || !keysOk {
          return None;
        }
        a := a.(actor := key.user, project := key.project, environment := lease.environment,
            expires := Some(issued.expires));
        if lease.expires < a.expires.value {
          a := a.(expires := Some(lease.expires));
        }
        if key.expires.Some? && key.expires.value < a.expires.value {
          a := a.(expires := key.expires);
        }
        var scopes := LeaseScopes(lease.keys);
        a := a.(scopes := scopes);
      }
      assert Granted(db, p, r, requireSession, now) == Some(a);
      if a.project !in db.projects || db.projects[a.project].deleted {
        return None;
      }
      var project := db.projects[a.project];
      a := a.(role := RoleIn(db, project, a.actor));
      if project.org.Some? {
        a := a.(tenant := project.org.value);
      }
      return Some(a);
    }

    // An agent may read the keys its lease names; a lease without keys bounds nothing.
    method LeaseScopes(keys: seq<string>) returns (scopes: seq<string>)
      ensures scopes == ReadScopes(keys)
    {
      scopes := [];
      if |keys| == 0 {
        scopes := ["read"];
      }
      for i := 0 to |keys|
        invariant keys == [] ==> scopes == ["read"]
        invariant keys != [] ==> scopes == seq(i, j requires 0 <= j < i => "read:" + keys[j])
      {
        scopes := scopes + ["read:" + keys[i]];
      }
    }

    method Authorize(db: Db, p: Principal, action: Action, r: Resource, now: int) returns (d: Decision)
      ensures d == Decide(db, p, action, r, requireSession, now)
    {
      if !Admissible(p, action, r, now) {
        return DENY;
      }
      var loaded := LoadAuthority(db, p, r, now);
      if loaded.None? {
        return DENY;
      }
      var a := loaded.value;
      if !AuthorityFits(a, p, r, now) {
        return DENY;
      }
      if action == InvokeTool || !RoleAllows(a.role, RequiredRole(action)) {
        return DENY;
      }
      if p.kind == AgentToken && action != ReadValue && action != ReadMetadata {
        return DENY;
      }
      if p.kind == APIKey || p.kind == AgentToken {
        var fits := ScopeCheck(a, action, r);
        if !fits {
          return DENY;
        }
      }
      return Decision(true, a.expires);
    }
  }

  // The last check of Authorize: key-level scopes, or any scope's verb for a collection.
  method ScopeCheck(a: Authority, action: Action, r: Resource) returns (fits: bool)
    ensures fits <==> ScopeFits(a, action, r)
  {
    var legacy := LegacyAction(action);
    var allowed := LegacyAllows(a.scopes, legacy, r.key);
    if r.kind == "secret_collection" {
      allowed := false;
      for i := 0 to |a.scopes|
        invariant allowed <==> exists j :: 0 <= j < i && Cut(a.scopes[j]).0 == legacy
      {
        var (verb, rest) := Cut(a.scopes[i]);
        if verb == legacy {
          allowed := true;
          break;
        }
      }
    }
    return legacy != "" && (a.environment == "" || a.environment == r.environment) && allowed;
  }

  // ---------------------------------------------------------------- the decision in words

  // A scope is a verb, alone or before the first colon, and a pattern after it.
  lemma {:induction false} CutSplits(s: string)
    ensures var (verb, pattern) := Cut(s);
            ':' !in verb && (if ':' in s then s == verb + ":" + pattern else verb == s && pattern == "")
  {
    if s != "" && s[0] != ':' {
      CutSplits(s[1..]);
      assert s == [s[0]] + s[1..];
    }
  }

  // What a scope allows; a bare verb allows every key, and writing covers deleting.
  lemma ScopeInWords(verb: string, pattern: string, action: string, key: string)
    requires ':' !in verb
    ensures ScopeAllows(verb, action, key) <==> verb == action || (verb == "write" && action == "delete")
    ensures ScopeAllows(verb + ":" + pattern, action, key) <==>
            && (verb == action || (verb == "write" && action == "delete"))
            && (pattern == "" || Expands(pattern, key))
  {
    CutPlain(verb);
    CutAfterColon(verb, pattern);
  }

  // Lease keys are covered by the parent's scopes, and a lease without keys or with a star
  // needs a parent that reads everything.
  lemma LeaseInWords(scopes: seq<string>, keys: seq<string>)
    ensures LeaseOk(scopes, keys) <==>
            var all := "read" in scopes || "read:*" in scopes;
            && (keys == [] ==> all)
            && forall i :: 0 <= i < |keys| ==>
                 && 1 <= |keys[i]| <= 255
                 && (if '*' in keys[i] then keys[i] == "*" && all
                     else exists k :: 0 <= k < |scopes| && ScopeAllows(scopes[k], "read", keys[i]))
  {}

  function RolesFor(action: Action): set<string> {
    match action
    case ReadMetadata => {"viewer", "editor", "promoter", "admin"}
    case ApprovePromotion => {"promoter", "admin"}
    case ManageProject => {"admin"}
    case InvokeTool => {}
    case _ => {"editor", "promoter", "admin"}
  }

  lemma RoleInWords(role: string, action: Action)
    ensures action != InvokeTool && RoleAllows(role, RequiredRole(action)) <==> role in RolesFor(action)
  {}

  // The verb a key needs; other actions are not for keys at all.
  function VerbFor(action: Action): Option<string> {
    match action
    case ReadMetadata => Some("read")
    case ReadValue => Some("read")
    case IssueGrant => Some("read")
    case WriteSecret => Some("write")
    case RestoreSecret => Some("write")
    case DeleteSecret => Some("delete")
    case _ => None
  }

  // A key may use its verb in its environment: on a key that its scopes allow, or on the
  // collection if any scope has the verb.
  ghost predicate KeyMay(a: Authority, action: Action, r: Resource) {
    && VerbFor(action).Some? && (a.environment == "" || a.environment == r.environment)
    && exists i :: 0 <= i < |a.scopes| &&
         if r.kind == "secret_collection" then Cut(a.scopes[i]).0 == VerbFor(action).value
         else ScopeAllows(a.scopes[i], VerbFor(action).value, r.key)
  }

  lemma KeyInWords(a: Authority, action: Action, r: Resource)
    ensures ScopeFits(a, action, r) <==> KeyMay(a, action, r)
  {
    if KeyMay(a, action, r) {
      var i :| 0 <= i < |a.scopes| &&
        if r.kind == "secret_collection" then Cut(a.scopes[i]).0 == VerbFor(action).value
        else ScopeAllows(a.scopes[i], VerbFor(action).value, r.key);
    }
  }

  // Allowed, until the authority ends, exactly for a principal with a role for the action
  // on that project, and for keys and agents with a scope for it.
  lemma DecisionInWords(db: Db, p: Principal, action: Action, r: Resource, requireSession: bool, now: int)
    ensures var (d, load) := (Decide(db, p, action, r, requireSession, now), Load(db, p, r, requireSession, now));
            && (d.allowed <==>
                && p.subject != 0 && r.project != 0 && p.kind != Workload
                && (p.expires.Some? ==> now < p.expires.value)
                && (p.kind == OAuthDelegation ==>
                      && p.parentGrant != 0 && r.kind == "tool_platform"
                      && action in {ReadMetadata, ReadValue, IssueGrant})
                && load.Some?
                && var a := load.value;
                && a.project == r.project && r.tenant in {0, a.tenant} && p.tenant in {0, a.tenant}
                && p.actor in {0, a.actor} && (a.expires.Some? ==> now < a.expires.value)
                && a.role in RolesFor(action)
                && (p.kind == AgentToken ==> action in {ReadValue, ReadMetadata})
                && (p.kind in {APIKey, AgentToken} ==> KeyMay(a, action, r)))
            && d.validUntil == if d.allowed then load.value.expires else None
  {
    var load := Load(db, p, r, requireSession, now);
    if load.Some? {
      RoleInWords(load.value.role, action);
      KeyInWords(load.value, action, r);
    }
  }

  ghost predicate SessionOwned(db: Db, session: Id, user: Id, now: int) {
    && session != 0 && session in db.sessions && db.sessions[session].user == user
    && !db.sessions[session].revoked && now < db.sessions[session].expires
  }

  // What each kind of principal stands for before its role is looked up: the human itself,
  // the user of a key, and for a delegation what the consent leaves.
  lemma GrantedInWords(db: Db, p: Principal, r: Resource, requireSession: bool, now: int)
    ensures var g := Granted(db, p, r, requireSession, now);
            match p.kind
            case Workload => g == Some(Authority(p.subject, 0, "", r.project, "", [], None))
            case Human =>
              g == if requireSession ==> SessionOwned(db, p.session, p.subject, now)
                   then Some(Authority(p.subject, 0, "", r.project, "", [], None)) else None
            case APIKey =>
              g == if p.subject !in db.apiKeys then None
                   else
                     var k := db.apiKeys[p.subject];
                     Some(Authority(k.user, 0, "", k.project, if k.environment.Some? then k.environment.value else "",
                                    k.scopes, k.expires))
            case OAuthDelegation =>
              g == if && p.parentGrant != 0 && p.parentGrant in db.grants && db.grants[p.parentGrant].user == p.subject
                      && db.grants[p.parentGrant].session == p.session && !db.grants[p.parentGrant].revoked
                      && db.grants[p.parentGrant].clientEnabled && now < db.grants[p.parentGrant].expires
                      && SessionOwned(db, p.session, p.subject, now)
                   then Some(Authority(p.subject, 0, "", r.project, "", [], Some(db.grants[p.parentGrant].expires)))
                   else None
            case AgentToken => (g.Some? <==> TokenGood(db, p, now)) && (g.Some? ==> IsAgentAuthority(db, p, g.value))
  {}

  // An agent's token, its lease and the key the lease was cut from all stand, and the lease
  // is no wider than the key.
  ghost predicate TokenGood(db: Db, p: Principal, now: int) {
    && p.lease != 0 && p.token != "" && p.token in db.issuance && p.lease in db.leases
    && (p.token in db.denylist ==> db.denylist[p.token] <= now)
    && var (token, lease) := (db.issuance[p.token], db.leases[p.lease]);
    && token.lease == p.lease && token.user == p.actor && now < token.expires
    && lease.project == token.project && !lease.revoked && now < lease.expires && lease.apiKey in db.apiKeys
    && var key := db.apiKeys[lease.apiKey];
    && key.project == lease.project && (key.environment.Some? ==> key.environment.value == lease.environment)
    && (key.expires.Some? ==> now < key.expires.value && lease.expires <= key.expires.value)
    && LeaseOk(key.scopes, lease.keys)
  }

  // It stands for the key's user in the lease's environment, reads the lease's keys, and
  // ends with the first of the three.
  ghost predicate IsAgentAuthority(db: Db, p: Principal, a: Authority)
    requires p.token in db.issuance && p.lease in db.leases && db.leases[p.lease].apiKey in db.apiKeys
  {
    var (token, lease) := (db.issuance[p.token], db.leases[p.lease]);
    var key := db.apiKeys[lease.apiKey];
    && a == Authority(key.user, 0, "", key.project, lease.environment, a.scopes, a.expires)
    && a.expires.Some? && a.expires.value <= token.expires && a.expires.value <= lease.expires
    && (key.expires.Some? ==> a.expires.value <= key.expires.value)
    && (a.expires.value in {token.expires, lease.expires} || a.expires == key.expires)
    && (lease.keys == [] ==> a.scopes == ["read"])
    && (lease.keys != [] ==>
          && |a.scopes| == |lease.keys|
          && forall i :: 0 <= i < |lease.keys| ==> a.scopes[i] == "read:" + lease.keys[i])
  }

  // The project must exist; its organization is the tenant, and the role is that of the
  // membership, or an owner's where there is none.
  lemma LoadInWords(db: Db, p: Principal, r: Resource, requireSession: bool, now: int)
    ensures var (g, load) := (Granted(db, p, r, requireSession, now), Load(db, p, r, requireSession, now));
            && (load.Some? <==> g.Some? && g.value.project in db.projects && !db.projects[g.value.project].deleted)
            && (load.Some? ==>
                  var (a, project) := (g.value, db.projects[g.value.project]);
                  match project.org
                  case Some(org) =>
                    load.value == a.(
                      tenant := org, role := if (org, a.actor) in db.members then db.members[(org, a.actor)] else "")
                  case None => load.value == a.(tenant := 0, role := if project.owner == a.actor then "admin" else ""))
  {}

  // ---------------------------------------------------------------- confinement

  lemma {:induction false} CutAfterColon(verb: string, pattern: string)
    requires ':' !in verb
    ensures Cut(verb + ":" + pattern) == (verb, pattern)
  {
    var s := verb + ":" + pattern;
    if verb == "" {
      assert s[1..] == pattern;
    } else {
      assert s[1..] == verb[1..] + ":" + pattern;
      CutAfterColon(verb[1..], pattern);
      assert verb == [verb[0]] + verb[1..];
    }
  }

  lemma {:induction false} CutPlain(verb: string)
    requires ':' !in verb
    ensures Cut(verb) == (verb, "")
  {
    if verb != "" {
      CutPlain(verb[1..]);
      assert verb == [verb[0]] + verb[1..];
    }
  }

  lemma {:induction false} NoStar(key: string)
    requires '*' !in key
    ensures Stars(key) == 0
  {
    if key != "" { NoStar(key[1..]); }
  }

  // Unbounded read authority covers every key.
  lemma UnboundedCovers(scopes: seq<string>, key: string)
    requires Unbounded(scopes)
    ensures ScopesAllow(scopes, "read", key) && HasVerb(scopes, "read")
  {
    var s := if "read" in scopes then "read" else "read:*";
    var i :| 0 <= i < |scopes| && scopes[i] == s;
    if s == "read" {
      CutPlain(s);
    } else {
      CutAfterColon("read", "*");
      assert "read" + ":" + "*" == "read:*";
      StarMatchesAll(key);
    }
    assert ScopeAllows(scopes[i], "read", key);
  }

  // A lease key reads no more than the parent's scopes do.
  lemma LeaseKeyIsCovered(scopes: seq<string>, leaseKey: string, key: string)
    requires LeaseKeyOk(scopes, leaseKey)
    ensures ScopeAllows("read:" + leaseKey, "read", key) ==> ScopesAllow(scopes, "read", key)
    ensures HasVerb(scopes, "read")
  {
    CutAfterColon("read", leaseKey);
    assert "read" + ":" + leaseKey == "read:" + leaseKey;
    if '*' in leaseKey {
      UnboundedCovers(scopes, key);
    } else {
      NoStar(leaseKey);
      NoStarsIsLiteral(leaseKey, key);
      var i :| 0 <= i < |scopes| && ScopeAllows(scopes[i], "read", leaseKey);
      assert |"read"| != |"delete"|;
      assert Cut(scopes[i]).0 == "read";
    }
  }

  lemma LeaseScopesAreCovered(scopes: seq<string>, keys: seq<string>, key: string)
    requires LeaseOk(scopes, keys)
    ensures ScopesAllow(ReadScopes(keys), "read", key) ==> ScopesAllow(scopes, "read", key)
    ensures HasVerb(scopes, "read")
  {
    if keys == [] {
      UnboundedCovers(scopes, key);
    } else {
      LeaseKeyIsCovered(scopes, keys[0], key);
      if ScopesAllow(ReadScopes(keys), "read", key) {
        var i :| 0 <= i < |ReadScopes(keys)| && ScopeAllows(ReadScopes(keys)[i], "read", key);
        LeaseKeyIsCovered(scopes, keys[i], key);
      }
    }
  }

  // A principal that presents the API key an agent token's lease was cut from. The tenant
  // and the actor it names, if any, are those of the project and of the key.
  predicate ParentOf(q: Principal, db: Db, p: Principal, r: Resource, now: int) {
    && q.kind.APIKey? && p.lease in db.leases && q.subject == db.leases[p.lease].apiKey && q.subject != 0
    && q.subject in db.apiKeys && q.actor in {0, db.apiKeys[q.subject].user}
    && r.project in db.projects && q.tenant in {0, TenantOf(db.projects[r.project])} && !Ended(q.expires, now)
  }

  lemma ParentLoads(db: Db, p: Principal, q: Principal, r: Resource, requireSession: bool, now: int)
    requires p.kind.AgentToken? && ParentOf(q, db, p, r, now) && Load(db, p, r, requireSession, now).Some?
    ensures TokenStands(db, p, now) && AgentOk(db, p, now)
    ensures var token := Load(db, p, r, requireSession, now).value;
            var lease := db.leases[p.lease];
            var k := db.apiKeys[lease.apiKey];
            && Load(db, q, r, requireSession, now)
               == Some(token.(environment := EnvironmentOf(k), scopes := k.scopes, expires := k.expires))
            && token.environment == lease.environment && token.scopes == ReadScopes(lease.keys)
            && token.expires.Some?
            && (k.expires.Some? ==> token.expires.value <= k.expires.value && k.expires.value > now)
  {
  }

  // Whatever an agent token may do, its parent API key may do at that instant, and the
  // token's permission ends no later than the key's.
  lemma AgentIsConfined(db: Db, p: Principal, q: Principal, action: Action, r: Resource, requireSession: bool, now: int)
    requires p.kind.AgentToken? && Decide(db, p, action, r, requireSession, now).allowed && ParentOf(q, db, p, r, now)
    ensures var (token, key) :=
        (Decide(db, p, action, r, requireSession, now), Decide(db, q, action, r, requireSession, now));
            && key.allowed && token.validUntil.Some? && token.validUntil.value > now
            && (key.validUntil.Some? ==> token.validUntil.value <= key.validUntil.value)
  {
    ParentLoads(db, p, q, r, requireSession, now);
    var lease := db.leases[p.lease];
    LeaseScopesAreCovered(db.apiKeys[lease.apiKey].scopes, lease.keys, r.key);
  }

  lemma LiteralLeaseKeys(scopes: seq<string>, keys: seq<string>, key: string)
    requires LeaseOk(scopes, keys) && keys != [] && "*" !in keys && ScopesAllow(ReadScopes(keys), "read", key)
    ensures key in keys
  {
    var i :| 0 <= i < |keys| && ScopeAllows(ReadScopes(keys)[i], "read", key);
    CutAfterColon("read", keys[i]);
    assert "read" + ":" + keys[i] == "read:" + keys[i];
    assert LeaseKeyOk(scopes, keys[i]) && '*' !in keys[i];
    NoStar(keys[i]);
    NoStarsIsLiteral(keys[i], key);
  }

  // An agent token reads and nothing else, in its lease's project and environment, and
  // only the keys its lease lists when those are literal.
  lemma AgentOnlyReads(db: Db, p: Principal, action: Action, r: Resource, requireSession: bool, now: int)
    requires p.kind.AgentToken? && Decide(db, p, action, r, requireSession, now).allowed
    ensures action.ReadValue? || action.ReadMetadata?
    ensures TokenStands(db, p, now)
    ensures var lease := db.leases[p.lease];
            && lease.expires > now && (lease.environment == "" || lease.environment == r.environment)
            && lease.project == r.project
            && (r.kind != "secret_collection" && lease.keys != [] && "*" !in lease.keys ==> r.key in lease.keys)
  {
    var lease := db.leases[p.lease];
    if r.kind != "secret_collection" && lease.keys != [] && "*" !in lease.keys {
      LiteralLeaseKeys(db.apiKeys[lease.apiKey].scopes, lease.keys, r.key);
    }
  }
}
