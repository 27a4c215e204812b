/**
 Delegated OAuth lineage: backend/internal/mcpauth/service.go and delegations.go. A
 human approves a request; its code is exchanged once for a family of tokens that
 rotate; everything hangs below the human's session.
 */
module OAuth {
  import opened Wrappers

  // A UUID; 0 is uuid.Nil.
  type Id = nat
  // A stored hash of a code, access or refresh token.
  type Digest = nat

  const SECOND := 1_000_000_000
  const MINUTE := 60 * SECOND

  datatype Client = Client(redirect: string, enabled: bool)
  datatype Request = Request(client: string, resource: string, redirect: string, scope: string, challenge: string,
      expires: int, consumed: bool)
  datatype Consent = Consent(user: Id, session: Id, client: string, resource: string, scope: string, expires: int,
      revoked: bool)
  datatype Code = Code(consent: Id, redirect: string, challenge: string, expires: int, used: bool)
  datatype Family = Family(consent: Id, expires: int, revoked: bool)
  datatype Token = Token(family: Id, access: Digest, refresh: Digest, expires: int, rotated: bool, createdAt: int)
  datatype Session = Session(user: Id, revoked: bool, expires: int, created: int)

  // `approvals` is the audit trail of approved requests and the consents they produced.
  datatype Db = Db(
    clients: map<string, Client>, requests: map<Id, Request>, consents: map<Id, Consent>, codes: map<Digest, Code>,
    families: map<Id, Family>, tokens: map<Id, Token>, sessions: map<Id, Session>, approvals: map<Id, Id>)

  // What the unlocked read before a locked transaction found.
  datatype Lineage = Lineage(consent: Id, user: Id, session: Id, family: Id, token: Id)

  // The clock, whether the guard's locks were granted and whether the audit append held.
  datatype World = World(now: int, guardOk: bool, auditOk: bool)

  // Values drawn at random by a transaction.
  datatype Fresh = Fresh(id: Id, token: Id, access: Digest, refresh: Digest)

  datatype Principal = Principal(user: Id, session: Id, family: Id, token: Id, client: string, scope: string,
      expires: int)

  function Min(a: int, b: int): int { if b < a then b else a }

  // ---------------------------------------------------------------- shared checks

  predicate SessionActive(db: Db, user: Id, sid: Id, recent: bool, w: World) {
    && w.guardOk && user != 0 && sid != 0 && sid in db.sessions && db.sessions[sid].user == user
    && !db.sessions[sid].revoked
    && db.sessions[sid].expires > w.now && (recent ==> db.sessions[sid].created > w.now - 10 * MINUTE)
  }

  predicate ClientOk(db: Db, client: string, redirect: string) {
    client in db.clients && db.clients[client].enabled && (redirect != "" ==> db.clients[client].redirect == redirect)
  }

  predicate RequestOpen(db: Db, resource: string, id: Id, now: int) {
    && id in db.requests && ClientOk(db, db.requests[id].client, "")
    && !db.requests[id].consumed && db.requests[id].expires > now && db.requests[id].resource == resource
  }

  // lockConsent: the lineage's consent still stands.
  predicate ConsentStands(db: Db, resource: string, l: Lineage, now: int) {
    && l.consent in db.consents
    && db.consents[l.consent].user == l.user && db.consents[l.consent].session == l.session
    && !db.consents[l.consent].revoked && db.consents[l.consent].resource == resource
    && db.consents[l.consent].expires > now && ClientOk(db, db.consents[l.consent].client, "")
  }

  predicate Admitted(db: Db, resource: string, l: Lineage, w: World) {
    SessionActive(db, l.user, l.session, false, w) && ConsentStands(db, resource, l, w.now)
  }

  predicate FamilyStands(db: Db, family: Id, now: int) {
    family in db.families && !db.families[family].revoked && db.families[family].expires > now
  }

  // The UNIQUE columns an issued token must not repeat.
  predicate Insertable(db: Db, f: Fresh) {
    f.token != 0 && f.token !in db.tokens
    && forall t :: t in db.tokens ==> db.tokens[t].access != f.access && db.tokens[t].refresh != f.refresh
  }

  function Issued(family: Id, f: Fresh, limit: int, now: int): Token {
    Token(family, f.access, f.refresh, Min(now + 10 * MINUTE, limit), false, now)
  }

  // ---------------------------------------------------------------- transactions

  function Begin(
        db: Db, resource: string, id: Id, client: string, redirect: string, scope: string, challenge: string, now: int)
    : Db
  {
    if id != 0 && id !in db.requests && redirect != "" && ClientOk(db, client, redirect)
    then db.(requests :=
        db.requests[id := Request(client, resource, redirect, scope, challenge, now + 5 * MINUTE, false)])
    else db
  }

  predicate MayDecide(db: Db, resource: string, user: Id, sid: Id, id: Id, w: World) {
    && SessionActive(db, user, sid, true, w) && RequestOpen(db, resource, id, w.now)
    && ClientOk(db, db.requests[id].client, db.requests[id].redirect)
  }

  function Decide(
        db: Db, resource: string, user: Id, sid: Id, id: Id, approve: bool, consent: Id, code: Digest, w: World)
    : (Db, bool)
  {
    if !MayDecide(db, resource, user, sid, id, w) || !w.auditOk
       || (approve && (consent == 0 || consent in db.consents || code in db.codes)) then (db, false)
    else
      var r := db.requests[id];
      var spent := db.(requests := db.requests[id := r.(consumed := true)]);
      if !approve then (spent, true)
      else
        var until := Min(w.now + 480 * MINUTE, db.sessions[sid].expires);
        (spent.(
          consents := db.consents[consent := Consent(user, sid, r.client, resource, r.scope, until, false)],
          codes := db.codes[code := Code(consent, r.redirect, r.challenge, w.now + 60 * SECOND, false)],
          approvals := db.approvals[id := consent]), true)
  }

  // The unlocked read of Exchange.
  function LookUpCode(db: Db, code: Digest): Option<Lineage> {
    if code in db.codes && db.codes[code].consent in db.consents
    then
      var k := db.codes[code].consent;
      Some(Lineage(k, db.consents[k].user, db.consents[k].session, 0, 0))
    else None
  }

  predicate MayExchange(
        db: Db, resource: string, l: Lineage, code: Digest, client: string, redirect: string, challenge: string,
        w: World)
  {
    && client != "" && Admitted(db, resource, l, w) && code in db.codes
    && !db.codes[code].used && db.codes[code].expires > w.now
    && db.consents[l.consent].client == client && db.codes[code].redirect == redirect
    && db.codes[code].challenge == challenge
  }

  // `challenge` is the S256 transform of the presented verifier.
  function Exchange(
        db: Db, resource: string, l: Lineage, code: Digest, client: string, redirect: string, challenge: string,
        f: Fresh, w: World)
    : (Db, bool)
  {
    if !MayExchange(db, resource, l, code, client, redirect, challenge, w) || !w.auditOk
       || f.id == 0 || f.id in db.families || !Insertable(db, f) then (db, false)
    else
      var until := db.consents[l.consent].expires;
      (db.(codes := db.codes[code := db.codes[code].(used := true)],
           families := db.families[f.id := Family(l.consent, until, false)],
           tokens := db.tokens[f.token := Issued(f.id, f, until, w.now)]), true)
  }

  // The unlocked read `discover`, by refresh or by access hash.
  predicate TokenFor(db: Db, t: Id, digest: Digest, refresh: bool) {
    t in db.tokens && (if refresh then db.tokens[t].refresh else db.tokens[t].access) == digest
  }

  predicate LineageOf(db: Db, l: Lineage, t: Id) {
    && t in db.tokens && db.tokens[t].family in db.families
    && db.families[db.tokens[t].family].consent in db.consents
    && l.token == t && l.family == db.tokens[t].family && l.consent == db.families[l.family].consent
    && l.user == db.consents[l.consent].user && l.session == db.consents[l.consent].session
  }

  predicate Discovered(db: Db, l: Lineage, digest: Digest, refresh: bool) {
    TokenFor(db, l.token, digest, refresh) && LineageOf(db, l, l.token)
  }

  datatype Refreshed = Rotated | Replayed | Denied

  predicate MayRefresh(db: Db, resource: string, l: Lineage, digest: Digest, client: string, scope: string, w: World) {
    && client != "" && Admitted(db, resource, l, w) && db.consents[l.consent].client == client
    && scope in {"", db.consents[l.consent].scope}
    && FamilyStands(db, l.family, w.now)
    && TokenFor(db, l.token, digest, true) && db.tokens[l.token].family == l.family
  }

  function RevokeFamily(db: Db, family: Id): Db
    requires family in db.families
  {
    db.(families := db.families[family := db.families[family].(revoked := true)])
  }

  function Refresh(
        db: Db, resource: string, l: Lineage, digest: Digest, client: string, scope: string, f: Fresh, w: World)
    : (Db, Refreshed)
  {
    if !MayRefresh(db, resource, l, digest, client, scope, w) || !w.auditOk then (db, Denied)
    else if db.tokens[l.token].rotated then (RevokeFamily(db, l.family), Replayed)
    else if !Insertable(db, f) then (db, Denied)
    else
      var limit := Min(db.consents[l.consent].expires, db.families[l.family].expires);
      (db.(tokens := db.tokens[l.token := db.tokens[l.token].(rotated := true)]
                     [f.token := Issued(l.family, f, limit, w.now)]), Rotated)
  }

  predicate ValidNow(db: Db, resource: string, l: Lineage, digest: Digest, w: World) {
    && Admitted(db, resource, l, w) && FamilyStands(db, l.family, w.now)
    && TokenFor(db, l.token, digest, false) && db.tokens[l.token].family == l.family
    && !db.tokens[l.token].rotated && db.tokens[l.token].expires > w.now
  }

  function Validate(db: Db, resource: string, l: Lineage, digest: Digest, w: World): Option<Principal> {
    if !ValidNow(db, resource, l, digest, w) then None
    else
      var c := db.consents[l.consent];
      Some(Principal(l.user, l.session, l.family, l.token, c.client, c.scope,
        Min(Min(Min(db.tokens[l.token].expires, db.sessions[l.session].expires), c.expires),
            db.families[l.family].expires)))
  }

  function Revoke(db: Db, resource: string, l: Lineage, client: string, w: World): Db {
    if l.consent in db.consents && db.consents[l.consent].client == client
       && Admitted(db, resource, l, w) && l.family in db.families && !db.families[l.family].revoked && w.auditOk
    then RevokeFamily(db, l.family) else db
  }

  function RevokeDelegation(db: Db, resource: string, user: Id, sid: Id, family: Id, w: World): Db {
    if SessionActive(db, user, sid, false, w) && family in db.families && db.families[family].consent in db.consents
       && db.consents[db.families[family].consent].user == user
       && db.consents[db.families[family].consent].resource == resource && !db.families[family].revoked && w.auditOk
    then RevokeFamily(db, family) else db
  }

  // Admission of a stored delegation into a domain transaction.
  predicate GrantStands(db: Db, resource: string, p: Principal, client: string, now: int) {
    && p.user != 0 && p.session != 0 && p.family != 0 && p.expires > now
    && p.family in db.families && db.families[p.family].consent in db.consents
    && db.consents[db.families[p.family].consent].user == p.user
    && db.consents[db.families[p.family].consent].session == p.session
    && db.consents[db.families[p.family].consent].resource == resource
    && db.consents[db.families[p.family].consent].client == client
    && !db.consents[db.families[p.family].consent].revoked && db.consents[db.families[p.family].consent].expires > now
    && FamilyStands(db, p.family, now)
    && p.token != 0 && p.token in db.tokens && db.tokens[p.token].family == p.family
    && !db.tokens[p.token].rotated && db.tokens[p.token].expires > now
    && ClientOk(db, client, "")
  }

  predicate LiveIn(db: Db, family: Id, t: Id, now: int) {
    t in db.tokens && db.tokens[t].family == family && !db.tokens[t].rotated && db.tokens[t].expires > now
  }

  // A token FamilyPrincipalTx may pick: the newest unrotated one of the family.
  predicate Newest(db: Db, family: Id, t: Id, now: int) {
    && LiveIn(db, family, t, now)
    && forall u :: u in db.tokens && LiveIn(db, family, u, now) ==> db.tokens[u].createdAt <= db.tokens[t].createdAt
  }

  // No family has two unrotated tokens.
  ghost predicate OneLive(db: Db) {
    forall t, u :: (t in db.tokens && u in db.tokens && db.tokens[t].family == db.tokens[u].family
                    && !db.tokens[t].rotated && !db.tokens[u].rotated) ==> t == u
  }

  // The delegation a human may narrow a request to, built on token t.
  predicate Narrows(
        db: Db, resource: string, user: Id, sid: Id, client: string, family: Id, t: Id, w: World, p: Principal)
  {
    && client != "" && family in db.families && db.families[family].consent in db.consents
    && var c := db.consents[db.families[family].consent];
    && c.client == client && c.resource == resource && c.user == user
    && SessionActive(db, user, sid, false, w) && SessionActive(db, c.user, c.session, false, w)
    && Newest(db, family, t, w.now)
    && p == Principal(user, c.session, family, t, client, c.scope,
                      Min(Min(Min(db.tokens[t].expires, db.families[family].expires), c.expires),
                          db.sessions[c.session].expires))
    && GrantStands(db, resource, p, client, w.now)
  }

  // ---------------------------------------------------------------- the transactions in terms of columns

  // A session admits its own user until it expires, and for a decision ten minutes.
  lemma SessionInColumns(db: Db, user: Id, sid: Id, recent: bool, w: World)
    ensures SessionActive(db, user, sid, recent, w) <==>
            && w.guardOk && user != 0 && sid != 0 && sid in db.sessions
            && var s := db.sessions[sid];
            s.user == user && !s.revoked && w.now < s.expires && (recent ==> w.now < s.created + 600_000_000_000)
  {}

  // The lineage of a credential stands while its session, its consent and its client do.
  lemma LineageInColumns(db: Db, resource: string, l: Lineage, w: World)
    ensures Admitted(db, resource, l, w) <==>
            && SessionActive(db, l.user, l.session, false, w) && l.consent in db.consents
            && var c := db.consents[l.consent];
            && c.user == l.user && c.session == l.session && c.resource == resource && !c.revoked
            && w.now < c.expires && c.client in db.clients && db.clients[c.client].enabled
  {}

  // A request is stored open for five minutes, for an enabled client at its own redirect.
  lemma BeginInColumns(
      db: Db, resource: string, id: Id, client: string, redirect: string, scope: string, challenge: string, now: int)
    ensures Begin(db, resource, id, client, redirect, scope, challenge, now)
         == if && id != 0 && id !in db.requests && redirect != "" && client in db.clients
               && db.clients[client].enabled && db.clients[client].redirect == redirect
            then db.(requests := db.requests[id := Request(
                       client, resource, redirect, scope, challenge, now + 300_000_000_000, false)])
            else db
  {}

  // An open request of an enabled client is decided from a recent session; an approval
  // opens a consent of at most eight hours and a code of one minute.
  lemma DecideInColumns(
      db: Db, resource: string, user: Id, sid: Id, id: Id, approve: bool, consent: Id, code: Digest, w: World)
    ensures var (n, ok) := Decide(db, resource, user, sid, id, approve, consent, code, w);
            && (ok <==>
                && SessionActive(db, user, sid, true, w) && w.auditOk && id in db.requests
                && (approve ==> consent != 0 && consent !in db.consents && code !in db.codes)
                && var r := db.requests[id];
                && !r.consumed && w.now < r.expires && r.resource == resource
                && r.client in db.clients && db.clients[r.client].enabled
                && (r.redirect != "" ==> db.clients[r.client].redirect == r.redirect))
            && (!ok ==> n == db)
            && (ok ==>
                  var r := db.requests[id];
                  var (end, session) := (w.now + 28_800_000_000_000, db.sessions[sid].expires);
                  var until := if session < end then session else end;
                  n == if !approve then db.(requests := db.requests[id := r.(consumed := true)])
                       else db.(
                         requests := db.requests[id := r.(consumed := true)],
                         consents := db.consents[
                           consent := Consent(user, sid, r.client, resource, r.scope, until, false)],
                         codes := db.codes[
                           code := Code(consent, r.redirect, r.challenge, w.now + 60_000_000_000, false)],
                         approvals := db.approvals[id := consent]))
  {}

  // The hashes and the id drawn for a token are new.
  lemma InsertableInColumns(db: Db, f: Fresh)
    ensures Insertable(db, f) <==>
            && f.token != 0 && f.token !in db.tokens
            && (forall t :: t in db.tokens ==> db.tokens[t].access != f.access)
            && (forall t :: t in db.tokens ==> db.tokens[t].refresh != f.refresh)
  {}

  // An unused code of a standing lineage, presented as its request was made, opens a family
  // that lasts as long as the consent, and its first token, of ten minutes at most.
  lemma ExchangeInColumns(
      db: Db, resource: string, l: Lineage, code: Digest, client: string, redirect: string, challenge: string,
      f: Fresh, w: World)
    ensures var (n, ok) := Exchange(db, resource, l, code, client, redirect, challenge, f, w);
            && (ok <==>
                && client != "" && Admitted(db, resource, l, w) && w.auditOk
                && db.consents[l.consent].client == client && code in db.codes
                && f.id != 0 && f.id !in db.families && Insertable(db, f)
                && var k := db.codes[code];
                !k.used && w.now < k.expires && k.redirect == redirect && k.challenge == challenge)
            && (!ok ==> n == db)
            && (ok ==>
                  var (end, until) := (w.now + 600_000_000_000, db.consents[l.consent].expires);
                  n == db.(codes := db.codes[code := db.codes[code].(used := true)],
                           families := db.families[f.id := Family(l.consent, until, false)],
                           tokens := db.tokens[f.token := Token(
                             f.id, f.access, f.refresh, if until < end then until else end, false, w.now)]))
  {}

  // A refresh token of a standing family is rotated once, for a token of ten minutes that
  // neither the consent nor the family outlives; a rotated one revokes the family.
  lemma RefreshInColumns(
      db: Db, resource: string, l: Lineage, digest: Digest, client: string, scope: string, f: Fresh, w: World)
    ensures var (n, r) := Refresh(db, resource, l, digest, client, scope, f, w);
            if && client != "" && Admitted(db, resource, l, w) && w.auditOk && db.consents[l.consent].client == client
               && (scope == "" || scope == db.consents[l.consent].scope)
               && l.family in db.families && !db.families[l.family].revoked && w.now < db.families[l.family].expires
               && l.token in db.tokens && db.tokens[l.token].refresh == digest && db.tokens[l.token].family == l.family
            then
              if db.tokens[l.token].rotated then
                && r == Replayed
                && n == db.(families := db.families[l.family := db.families[l.family].(revoked := true)])
              else if !Insertable(db, f) then (n, r) == (db, Denied)
              else
                var (a, b) := (db.consents[l.consent].expires, db.families[l.family].expires);
                var (end, until) := (w.now + 600_000_000_000, if b < a then b else a);
                && r == Rotated
                && n == db.(tokens := db.tokens[l.token := db.tokens[l.token].(rotated := true)][
                              f.token := Token(l.family, f.access, f.refresh, if until < end then until else end,
                                               false, w.now)])
            else (n, r) == (db, Denied)
  {}

  // An access token is good while its lineage and family stand and it is neither rotated
  // nor expired; what it is good for ends with the first of the four.
  lemma ValidateInColumns(db: Db, resource: string, l: Lineage, digest: Digest, w: World)
    ensures var p := Validate(db, resource, l, digest, w);
            && (p.Some? <==>
                && Admitted(db, resource, l, w)
                && l.family in db.families && !db.families[l.family].revoked && w.now < db.families[l.family].expires
                && l.token in db.tokens && db.tokens[l.token].access == digest
                && db.tokens[l.token].family == l.family && !db.tokens[l.token].rotated
                && w.now < db.tokens[l.token].expires)
            && (p.Some? ==>
                  var c := db.consents[l.consent];
                  var ends := {db.tokens[l.token].expires, db.sessions[l.session].expires, c.expires,
                               db.families[l.family].expires};
                  && p.value == Principal(l.user, l.session, l.family, l.token, c.client, c.scope, p.value.expires)
                  && p.value.expires in ends && forall end :: end in ends ==> p.value.expires <= end)
  {}

  // A client ends the family of a standing lineage of its own.
  lemma RevokeInColumns(db: Db, resource: string, l: Lineage, client: string, w: World)
    ensures Revoke(db, resource, l, client, w)
         == if && Admitted(db, resource, l, w) && db.consents[l.consent].client == client && w.auditOk
               && l.family in db.families && !db.families[l.family].revoked
            then db.(families := db.families[l.family := db.families[l.family].(revoked := true)]) else db
  {}

  // A human ends a family that hangs from a consent of theirs.
  lemma RevokeDelegationInColumns(db: Db, resource: string, user: Id, sid: Id, family: Id, w: World)
    ensures RevokeDelegation(db, resource, user, sid, family, w)
         == if && SessionActive(db, user, sid, false, w) && w.auditOk
               && family in db.families && !db.families[family].revoked && db.families[family].consent in db.consents
               && db.consents[db.families[family].consent].user == user
               && db.consents[db.families[family].consent].resource == resource
            then db.(families := db.families[family := db.families[family].(revoked := true)]) else db
  {}

  // A stored delegation is admitted while its client, consent, family and token stand.
  lemma GrantInColumns(db: Db, resource: string, p: Principal, client: string, now: int)
    ensures GrantStands(db, resource, p, client, now) <==>
            && p.user != 0 && p.session != 0 && p.family != 0 && p.token != 0 && now < p.expires
            && client in db.clients && db.clients[client].enabled
            && p.family in db.families && db.families[p.family].consent in db.consents && p.token in db.tokens
            && var (f, t) := (db.families[p.family], db.tokens[p.token]);
            var c := db.consents[f.consent];
            && c.user == p.user && c.session == p.session && c.resource == resource && c.client == client
            && !c.revoked && now < c.expires && !f.revoked && now < f.expires
            && t.family == p.family && !t.rotated && now < t.expires
  {}

  // A delegation offered to a human is their own, of this client, built on the newest live
  // token, with the first of four ends; and it is admitted.
  lemma NarrowsInColumns(
      db: Db, resource: string, user: Id, sid: Id, client: string, family: Id, t: Id, w: World, p: Principal)
    ensures Narrows(db, resource, user, sid, client, family, t, w, p) <==>
            && GrantStands(db, resource, p, client, w.now) && client != ""
            && p.user == user && p.family == family && p.token == t && p.client == client
            && SessionActive(db, user, sid, false, w) && SessionActive(db, user, p.session, false, w)
            && (forall u ::
                  (u in db.tokens && db.tokens[u].family == family && !db.tokens[u].rotated
                   && w.now < db.tokens[u].expires) ==> db.tokens[u].createdAt <= db.tokens[t].createdAt)
            && var c := db.consents[db.families[family].consent];
            var ends := {db.tokens[t].expires, db.families[family].expires, c.expires, db.sessions[p.session].expires};
            p.scope == c.scope && p.expires in ends && forall end :: end in ends ==> p.expires <= end
  {}

  // ---------------------------------------------------------------- the service

  class Service {
    var db: Db
    const resource: string

    constructor (resource: string, initial: Db)
      ensures db == initial && this.resource == resource
    {
      this.resource := resource;
      db := initial;
    }

    method DecideRequest(
          user: Id, sid: Id, id: Id, approve: bool, consent: Id, code: Digest, w: World) returns (ok: bool)
      modifies this
      ensures (db, ok) == Decide(old(db), resource, user, sid, id, approve, consent, code, w)
    {
      if !SessionActive(db, user, sid, true, w) {
        return false;
      }
      var parentExpiry := db.sessions[sid].expires;
      if !RequestOpen(db, resource, id, w.now) {
        return false;
      }
      var r := db.requests[id];
      if !ClientOk(db, r.client, r.redirect) {
        return false;
      }
      var tx := db.(requests := db.requests[id := r.(consumed := true)]);
      if approve {
        var expires := w.now + 480 * MINUTE;
        if parentExpiry < expires {
          expires := parentExpiry;
        }
        if consent == 0 || consent in tx.consents || code in tx.codes {
          return false;
        }
        tx := tx.(consents := tx.consents[consent := Consent(user, sid, r.client, resource, r.scope, expires, false)]);
        tx := tx.(codes := tx.codes[code := Code(consent, r.redirect, r.challenge, w.now + 60 * SECOND, false)]);
        tx := tx.(approvals := tx.approvals[id := consent]);
      }
      if !w.auditOk {
        return false;
      }
      db := tx;
      return true;
    }

    method ExchangeCode(
          l: Lineage, code: Digest, client: string, redirect: string, challenge: string, f: Fresh, w: World)
      returns (ok: bool)
      modifies this
      ensures (db, ok) == Exchange(old(db), resource, l, code, client, redirect, challenge, f, w)
    {
      if client == "" || !SessionActive(db, l.user, l.session, false, w) || !ConsentStands(db, resource, l, w.now) {
        return false;
      }
      var consent := db.consents[l.consent];
      if code !in db.codes {
        return false;
      }
      var row := db.codes[code];
      if row.used || row.expires <= w.now || consent.client != client || row.redirect != redirect
          || row.challenge != challenge {
        return false;
      }
      var tx := db.(codes := db.codes[code := row.(used := true)]);
      if f.id == 0 || f.id in tx.families {
        return false;
      }
      tx := tx.(families := tx.families[f.id := Family(l.consent, consent.expires, false)]);
      var expires := w.now + 10 * MINUTE;
      if consent.expires < expires {
        expires := consent.expires;
      }
      if !Insertable(tx, f) {
        return false;
      }
      tx := tx.(tokens := tx.tokens[f.token := Token(f.id, f.access, f.refresh, expires, false, w.now)]);
      if !w.auditOk {
        return false;
      }
      db := tx;
      return true;
    }

    method RefreshToken(
          l: Lineage, digest: Digest, client: string, scope: string, f: Fresh, w: World) returns (r: Refreshed)
      modifies this
      ensures (db, r) == Refresh(old(db), resource, l, digest, client, scope, f, w)
    {
      if client == "" || !SessionActive(db, l.user, l.session, false, w) || !ConsentStands(db, resource, l, w.now) {
        return Denied;
      }
      var consent := db.consents[l.consent];
      if client != consent.client || (scope != "" && scope != consent.scope) {
        return Denied;
      }
      if l.family !in db.families {
        return Denied;
      }
      var family := db.families[l.family];
      if family.revoked || family.expires <= w.now {
        return Denied;
      }
      if l.token !in db.tokens || db.tokens[l.token].refresh != digest || db.tokens[l.token].family != l.family {
        return Denied;
      }
      var row := db.tokens[l.token];
      if row.rotated {
        if !w.auditOk {
          return Denied;
        }
        db := db.(families := db.families[l.family := family.(revoked := true)]);
        return Replayed;
      }
      var tx := db.(tokens := db.tokens[l.token := row.(rotated := true)]);
      var limit := consent.expires;
      if family.expires < limit {
        limit := family.expires;
      }
      var expires := w.now + 10 * MINUTE;
      if limit < expires {
        expires := limit;
      }
      if !Insertable(db, f) || !w.auditOk {
        return Denied;
      }
      tx := tx.(tokens := tx.tokens[f.token := Token(l.family, f.access, f.refresh, expires, false, w.now)]);
      db := tx;
      return Rotated;
    }

    method ValidateToken(l: Lineage, digest: Digest, w: World) returns (p: Option<Principal>)
      ensures p == Validate(db, resource, l, digest, w)
    {
      if !SessionActive(db, l.user, l.session, false, w) || !ConsentStands(db, resource, l, w.now) {
        return None;
      }
      if l.family !in db.families || l.token !in db.tokens {
        return None;
      }
      var (t, f, c) := (db.tokens[l.token], db.families[l.family], db.consents[l.consent]);
      if t.access != digest || t.family != l.family || t.rotated || f.revoked || t.expires <= w.now
          || f.expires <= w.now {
        return None;
      }
      var limits := [db.sessions[l.session].expires, c.expires, f.expires];
      var expiry := t.expires;
      for i := 0 to |limits|
        invariant expiry == (if i == 0 then t.expires
                             else if i == 1 then Min(t.expires, limits[0])
                             else if i == 2 then Min(Min(t.expires, limits[0]), limits[1])
                             else Min(Min(Min(t.expires, limits[0]), limits[1]), limits[2]))
      {
        if limits[i] < expiry {
          expiry := limits[i];
        }
      }
      return Some(Principal(l.user, l.session, l.family, l.token, c.client, c.scope, expiry));
    }

    method RevokeToken(l: Lineage, client: string, w: World)
      modifies this
      ensures db == Revoke(old(db), resource, l, client, w)
    {
      if l.consent !in db.consents || client != db.consents[l.consent].client {
        return;
      }
      if !SessionActive(db, l.user, l.session, false, w) || !ConsentStands(db, resource, l, w.now) {
        return;
      }
      if l.family !in db.families || db.families[l.family].revoked || !w.auditOk {
        return;
      }
      db := db.(families := db.families[l.family := db.families[l.family].(revoked := true)]);
    }

    method RevokeDelegationFamily(user: Id, sid: Id, family: Id, w: World)
      modifies this
      ensures db == RevokeDelegation(old(db), resource, user, sid, family, w)
    {
      if !SessionActive(db, user, sid, false, w) || family !in db.families {
        return;
      }
      var f := db.families[family];
      if f.consent !in db.consents || db.consents[f.consent].user != user
          || db.consents[f.consent].resource != resource {
        return;
      }
      if f.revoked || !w.auditOk {
        return;
      }
      db := db.(families := db.families[family := f.(revoked := true)]);
    }

    method RequireGrantTx(p: Principal, client: string, now: int) returns (ok: bool)
      ensures ok <==> GrantStands(db, resource, p, client, now)
    {
      if p.user == 0 || p.session == 0 || p.family == 0 || p.expires <= now {
        return false;
      }
      if p.family !in db.families || db.families[p.family].consent !in db.consents {
        return false;
      }
      var f := db.families[p.family];
      var c := db.consents[f.consent];
      if c.user != p.user || c.session != p.session {
        return false;
      }
      if c.resource != resource || c.client != client || c.revoked || c.expires <= now {
        return false;
      }
      if f.revoked || f.expires <= now {
        return false;
      }
      if p.token == 0 || p.token !in db.tokens {
        return false;
      }
      var t := db.tokens[p.token];
      if t.family != p.family || t.rotated || t.expires <= now {
        return false;
      }
      return ClientOk(db, client, "");
    }

    // `ORDER BY created_at DESC LIMIT 1` leaves the choice among equally new tokens open.
    method FamilyPrincipalTx(user: Id, sid: Id, client: string, family: Id, w: World) returns (p: Option<Principal>)
      ensures p.Some? ==> Narrows(db, resource, user, sid, client, family, p.value.token, w, p.value)
      ensures (p.None? && OneLive(db)) ==> forall t, q :: !Narrows(db, resource, user, sid, client, family, t, w, q)
    {
      if client == "" || family !in db.families || db.families[family].consent !in db.consents {
        return None;
      }
      var c := db.consents[db.families[family].consent];
      if c.client != client || c.resource != resource || c.user != user {
        return None;
      }
      if !SessionActive(db, user, sid, false, w) || !SessionActive(db, c.user, c.session, false, w) {
        return None;
      }
      var live := set t | t in db.tokens && LiveIn(db, family, t, w.now);
      assert forall t: Id :: Newest(db, family, t, w.now) ==> t in live;
      if live == {} {
        return None;
      }
      NewestExists(db, family, live, w.now);
      var t: Id :| t in live && Newest(db, family, t, w.now);
      var expiry := Min(Min(Min(db.tokens[t].expires, db.families[family].expires), c.expires),
          db.sessions[c.session].expires);
      var q := Principal(user, c.session, family, t, client, c.scope, expiry);
      var ok := RequireGrantTx(q, client, w.now);
      return if ok then Some(q) else None;
    }
  }

  lemma {:induction false} NewestExists(db: Db, family: Id, live: set<Id>, now: int)
    requires live != {} && live <= db.tokens.Keys
    requires forall t :: t in live <==> LiveIn(db, family, t, now)
    ensures exists t :: t in live && Newest(db, family, t, now)
  {
    var t := Latest(db, live);
  }

  lemma {:induction false} Latest(db: Db, live: set<Id>) returns (t: Id)
    requires live != {} && live <= db.tokens.Keys
    ensures t in live && forall u :: u in live ==> db.tokens[u].createdAt <= db.tokens[t].createdAt
    decreases live
  {
    t :| t in live;
    if live != {t} {
      var best := Latest(db, live - {t});
      if db.tokens[t].createdAt < db.tokens[best].createdAt {
        t := best;
      }
    }
  }
}
