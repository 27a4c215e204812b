/** What every run of the OAuth service keeps, and what follows for its credentials. */
module OAuthProofs {
  import opened Wrappers
  import opened OAuth

  // ---------------------------------------------------------------- runs

  // What an unlocked read found; a locked transaction may use it at any later time.
  datatype Sighting = OfCode(code: Digest, l: Lineage) | OfToken(digest: Digest, refresh: bool, l: Lineage)

  datatype System = System(db: Db, seen: set<Sighting>)

  datatype Event =
    | Requested(id: Id, client: string, redirect: string, scope: string, challenge: string, now: int)
    | Decided(user: Id, sid: Id, id: Id, approve: bool, consent: Id, code: Digest, w: World)
    | CodeRead(code: Digest)
    | TokenRead(token: Id, digest: Digest, refresh: bool)
    | Exchanged(l: Lineage, code: Digest, client: string, redirect: string, challenge: string, f: Fresh, w: World)
    | Refreshes(l: Lineage, digest: Digest, client: string, scope: string, f: Fresh, w: World)
    | Revokes(l: Lineage, digest: Digest, refresh: bool, client: string, w: World)
    | RevokesDelegation(user: Id, sid: Id, family: Id, w: World)
    // The rest of the program.
    | SessionOpened(sid: Id, session: Session)
    | SessionRevoked(sid: Id)
    | ClientSet(name: string, row: Client)
    | ConsentRevoked(consent: Id)

  function TokenLineage(db: Db, t: Id): Option<Lineage> {
    if t in db.tokens && db.tokens[t].family in db.families && db.families[db.tokens[t].family].consent in db.consents
    then
      var f := db.tokens[t].family;
      var k := db.families[f].consent;
      Some(Lineage(k, db.consents[k].user, db.consents[k].session, f, t))
    else None
  }

  function Next(db: Db, seen: set<Sighting>, resource: string, e: Event): Db {
    match e
    case Requested(id, client, redirect, scope, challenge, now) =>
        Begin(db, resource, id, client, redirect, scope, challenge, now)
    case Decided(user, sid, id, approve, consent, code, w) =>
        Decide(db, resource, user, sid, id, approve, consent, code, w).0
    case CodeRead(_) => db
    case TokenRead(_, _, _) => db
    case Exchanged(l, code, client, redirect, challenge, f, w) =>
      if OfCode(code, l) in seen then Exchange(db, resource, l, code, client, redirect, challenge, f, w).0 else db
    case Refreshes(l, digest, client, scope, f, w) =>
      if OfToken(digest, true, l) in seen then Refresh(db, resource, l, digest, client, scope, f, w).0 else db
    case Revokes(l, digest, refresh, client, w) =>
      if OfToken(digest, refresh, l) in seen then Revoke(db, resource, l, client, w) else db
    case RevokesDelegation(user, sid, family, w) => RevokeDelegation(db, resource, user, sid, family, w)
    case SessionOpened(sid, session) => if sid in db.sessions then db else db.(sessions := db.sessions[sid := session])
    case SessionRevoked(sid) =>
      if sid in db.sessions then db.(sessions := db.sessions[sid := db.sessions[sid].(revoked := true)]) else db
    case ClientSet(name, row) => db.(clients := db.clients[name := row])
    case ConsentRevoked(consent) =>
      if consent in db.consents then db.(consents := db.consents[consent := db.consents[consent].(revoked := true)])
          else db
  }

  function Look(db: Db, seen: set<Sighting>, e: Event): set<Sighting> {
    match e
    case CodeRead(code) => if LookUpCode(db, code).Some? then seen + {OfCode(code, LookUpCode(db, code).value)}
        else seen
    case TokenRead(t, digest, refresh) =>
      if TokenFor(db, t, digest, refresh) && TokenLineage(db, t).Some?
      then seen + {OfToken(digest, refresh, TokenLineage(db, t).value)} else seen
    case _ => seen
  }

  function Step(s: System, resource: string, e: Event): System {
    System(Next(s.db, s.seen, resource, e), Look(s.db, s.seen, e))
  }

  function Run(s: System, resource: string, es: seq<Event>): System
    decreases es
  {
    if es == [] then s else Run(Step(s, resource, es[0]), resource, es[1..])
  }

  // ---------------------------------------------------------------- how rows move

  // Each row keeps what it was created with; only its one mark may be set.
  ghost predicate RequestMoves(a: Request, b: Request) { b == a || b == a.(consumed := true) }
  ghost predicate ConsentMoves(a: Consent, b: Consent) { b == a || b == a.(revoked := true) }
  ghost predicate CodeMoves(a: Code, b: Code) { b == a || b == a.(used := true) }
  ghost predicate FamilyMoves(a: Family, b: Family) { b == a || b == a.(revoked := true) }
  ghost predicate TokenMoves(a: Token, b: Token) { b == a || b == a.(rotated := true) }
  ghost predicate SessionMoves(a: Session, b: Session) { b == a || b == a.(revoked := true) }

  ghost predicate RequestsGrow(a: Db, b: Db) {
    forall r :: r in a.requests ==> r in b.requests && RequestMoves(a.requests[r], b.requests[r])
  }
  ghost predicate ConsentsGrow(a: Db, b: Db) {
    forall c :: c in a.consents ==> c in b.consents && ConsentMoves(a.consents[c], b.consents[c])
  }
  ghost predicate CodesGrow(a: Db, b: Db) {
    forall k :: k in a.codes ==> k in b.codes && CodeMoves(a.codes[k], b.codes[k])
  }
  ghost predicate FamiliesGrow(a: Db, b: Db) {
    forall f :: f in a.families ==> f in b.families && FamilyMoves(a.families[f], b.families[f])
  }
  ghost predicate TokensGrow(a: Db, b: Db) {
    forall t :: t in a.tokens ==> t in b.tokens && TokenMoves(a.tokens[t], b.tokens[t])
  }
  ghost predicate SessionsGrow(a: Db, b: Db) {
    forall s :: s in a.sessions ==> s in b.sessions && SessionMoves(a.sessions[s], b.sessions[s])
  }
  ghost predicate ApprovalsGrow(a: Db, b: Db) {
    forall r :: r in a.approvals ==> r in b.approvals && b.approvals[r] == a.approvals[r]
  }

  ghost predicate Grows(a: Db, b: Db) {
    && RequestsGrow(a, b) && ConsentsGrow(a, b) && CodesGrow(a, b) && FamiliesGrow(a, b)
    && TokensGrow(a, b) && SessionsGrow(a, b) && ApprovalsGrow(a, b)
  }

  // ---------------------------------------------------------------- the invariant

  ghost predicate ApprovalOk(db: Db, r: Id) {
    && r in db.approvals && r in db.requests && db.requests[r].consumed && db.approvals[r] in db.consents
    && db.consents[db.approvals[r]].client == db.requests[r].client
    && db.consents[db.approvals[r]].scope == db.requests[r].scope
  }

  ghost predicate ApprovalsOk(db: Db) { forall r :: r in db.approvals ==> ApprovalOk(db, r) }

  ghost predicate ApprovedOnce(db: Db) {
    forall r, q :: r in db.approvals && q in db.approvals && db.approvals[r] == db.approvals[q] ==> r == q
  }

  // Every code was made for one approved request, whose challenge and redirect it carries.
  ghost predicate ComesFrom(db: Db, k: Digest, r: Id) {
    && k in db.codes && r in db.approvals && r in db.requests && db.approvals[r] == db.codes[k].consent
    && db.codes[k].challenge == db.requests[r].challenge && db.codes[k].redirect == db.requests[r].redirect
  }

  ghost predicate CodeOk(db: Db, k: Digest) { exists r :: ComesFrom(db, k, r) }

  ghost predicate CodesOk(db: Db) { forall k :: k in db.codes ==> CodeOk(db, k) }

  ghost predicate OneCode(db: Db) {
    forall k, m :: k in db.codes && m in db.codes && db.codes[k].consent == db.codes[m].consent ==> k == m
  }

  ghost predicate ConsentOk(db: Db, c: Id) {
    && c in db.consents && db.consents[c].session in db.sessions
    && db.sessions[db.consents[c].session].user == db.consents[c].user
    && db.consents[c].expires <= db.sessions[db.consents[c].session].expires
  }

  ghost predicate ConsentsOk(db: Db) { forall c :: c in db.consents ==> ConsentOk(db, c) }

  ghost predicate Opens(db: Db, k: Digest, f: Id) {
    k in db.codes && f in db.families && db.codes[k].consent == db.families[f].consent && db.codes[k].used
  }

  ghost predicate FamilyOk(db: Db, f: Id) {
    && f != 0 && f in db.families && db.families[f].consent in db.consents
    && db.families[f].expires <= db.consents[db.families[f].consent].expires
  }

  ghost predicate IsLive(db: Db, f: Id, t: Id) { t in db.tokens && db.tokens[t].family == f && !db.tokens[t].rotated }

  // A family was opened by a used code and has an unrotated token.
  ghost predicate Opened(db: Db, f: Id) { exists k :: Opens(db, k, f) }
  ghost predicate Lives(db: Db, f: Id) { exists t :: IsLive(db, f, t) }

  ghost predicate FamiliesOk(db: Db) { forall f :: f in db.families ==> FamilyOk(db, f) && Opened(db, f) }

  ghost predicate SomeLive(db: Db) { forall f :: f in db.families ==> Lives(db, f) }

  ghost predicate OneFamily(db: Db) {
    forall f, g :: f in db.families && g in db.families && db.families[f].consent == db.families[g].consent ==> f == g
  }

  ghost predicate TokenOk(db: Db, t: Id) {
    && t != 0 && t in db.tokens && db.tokens[t].family in db.families
    && db.tokens[t].expires <= db.families[db.tokens[t].family].expires
  }

  ghost predicate TokensOk(db: Db) { forall t :: t in db.tokens ==> TokenOk(db, t) }

  ghost predicate Distinct(a: Token, b: Token) { a.access != b.access && a.refresh != b.refresh }

  ghost predicate HashesDiffer(db: Db) {
    forall t, u :: t in db.tokens && u in db.tokens && t != u ==> Distinct(db.tokens[t], db.tokens[u])
  }

  ghost predicate LineageOk(db: Db) {
    ApprovalsOk(db) && CodesOk(db) && ConsentsOk(db) && FamiliesOk(db) && TokensOk(db)
  }

  ghost predicate Unique(db: Db) { ApprovedOnce(db) && OneCode(db) && OneFamily(db) && HashesDiffer(db) && OneLive(db) }

  ghost predicate DbOk(db: Db) { LineageOk(db) && Unique(db) && SomeLive(db) }

  // A past unlocked read still describes the rows it read.
  ghost predicate Sound(db: Db, x: Sighting) {
    match x
    case OfCode(code, l) => LookUpCode(db, code) == Some(l)
    case OfToken(digest, refresh, l) => Discovered(db, l, digest, refresh)
  }

  ghost predicate SeenOk(db: Db, seen: set<Sighting>) { forall x :: x in seen ==> Sound(db, x) }

  ghost predicate Inv(s: System) { DbOk(s.db) && SeenOk(s.db, s.seen) }

  // ---------------------------------------------------------------- steps grow

  lemma GrowsIsTransitive(a: Db, b: Db, c: Db)
    requires Grows(a, b) && Grows(b, c)
    ensures Grows(a, c)
  {}

  lemma SightingStaysSound(a: Db, b: Db, x: Sighting)
    requires Grows(a, b) && Sound(a, x)
    ensures Sound(b, x)
  {}

  // ---------------------------------------------------------------- rows stay well-formed

  lemma ApprovalsStay(a: Db, b: Db)
    requires ApprovalsOk(a) && RequestsGrow(a, b) && ConsentsGrow(a, b) && ApprovalsGrow(a, b)
    ensures forall r :: r in a.approvals ==> ApprovalOk(b, r)
  {
    forall r | r in a.approvals ensures ApprovalOk(b, r) {
      assert ApprovalOk(a, r);
    }
  }

  lemma CodesStay(a: Db, b: Db)
    requires CodesOk(a) && RequestsGrow(a, b) && CodesGrow(a, b) && ApprovalsGrow(a, b)
    ensures forall k :: k in a.codes ==> CodeOk(b, k)
  {
    forall k | k in a.codes ensures CodeOk(b, k) {
      var r: Id :| ComesFrom(a, k, r);
      assert ComesFrom(b, k, r);
    }
  }

  lemma ConsentsStay(a: Db, b: Db)
    requires ConsentsOk(a) && ConsentsGrow(a, b) && SessionsGrow(a, b)
    ensures forall c :: c in a.consents ==> ConsentOk(b, c)
  {
    forall c | c in a.consents ensures ConsentOk(b, c) {
      assert ConsentOk(a, c);
    }
  }

  lemma FamiliesStay(a: Db, b: Db)
    requires FamiliesOk(a) && FamiliesGrow(a, b) && ConsentsGrow(a, b) && CodesGrow(a, b)
    ensures forall f :: f in a.families ==> FamilyOk(b, f) && Opened(b, f)
  {
    forall f | f in a.families ensures FamilyOk(b, f) && Opened(b, f) {
      assert FamilyOk(a, f) && Opened(a, f);
      var k: Digest :| Opens(a, k, f);
      assert Opens(b, k, f);
    }
  }

  lemma TokensStay(a: Db, b: Db)
    requires TokensOk(a) && TokensGrow(a, b) && FamiliesGrow(a, b)
    ensures forall t :: t in a.tokens ==> TokenOk(b, t)
  {
    forall t | t in a.tokens ensures TokenOk(b, t) {
      assert TokenOk(a, t);
    }
  }

  // Rows that were there stay well-formed; a step need only look after its new ones.
  lemma RowsStay(a: Db, b: Db)
    requires LineageOk(a) && Grows(a, b)
    ensures forall r :: r in a.approvals ==> ApprovalOk(b, r)
    ensures forall k :: k in a.codes ==> CodeOk(b, k)
    ensures forall c :: c in a.consents ==> ConsentOk(b, c)
    ensures forall f :: f in a.families ==> FamilyOk(b, f) && Opened(b, f)
    ensures forall t :: t in a.tokens ==> TokenOk(b, t)
  {
    ApprovalsStay(a, b);
    CodesStay(a, b);
    ConsentsStay(a, b);
    FamiliesStay(a, b);
    TokensStay(a, b);
  }

  // A family keeps its unrotated token while its tokens are not touched.
  lemma LivesOn(a: Db, b: Db, f: Id)
    requires Lives(a, f)
    requires forall t :: t in a.tokens && a.tokens[t].family == f ==> t in b.tokens && b.tokens[t] == a.tokens[t]
    ensures Lives(b, f)
  {
    var t: Id :| IsLive(a, f, t);
    assert IsLive(b, f, t);
  }

  // ---------------------------------------------------------------- steps that only mark

  // Nothing is created below a client, a request or a session.
  ghost predicate Marks(a: Db, b: Db) {
    && b.tokens == a.tokens && b.families.Keys == a.families.Keys && b.codes.Keys == a.codes.Keys
    && b.approvals == a.approvals && b.consents.Keys == a.consents.Keys
  }

  lemma MarkKeepsUnique(a: Db, b: Db)
    requires Unique(a) && CodesGrow(a, b) && FamiliesGrow(a, b) && Marks(a, b)
    ensures Unique(b)
  {
    forall k, m | k in b.codes && m in b.codes && b.codes[k].consent == b.codes[m].consent ensures k == m {
      assert CodeMoves(a.codes[k], b.codes[k]) && CodeMoves(a.codes[m], b.codes[m]);
    }
    forall f, g | f in b.families && g in b.families && b.families[f].consent == b.families[g].consent ensures f == g {
      assert FamilyMoves(a.families[f], b.families[f]) && FamilyMoves(a.families[g], b.families[g]);
    }
  }

  lemma MarkKeepsLive(a: Db, b: Db)
    requires SomeLive(a) && Marks(a, b)
    ensures SomeLive(b)
  {
    forall f | f in b.families ensures Lives(b, f) {
      LivesOn(a, b, f);
    }
  }

  lemma MarkKeeps(a: Db, b: Db)
    requires DbOk(a) && Grows(a, b) && Marks(a, b)
    ensures DbOk(b)
  {
    RowsStay(a, b);
    MarkKeepsUnique(a, b);
    MarkKeepsLive(a, b);
  }

  // ---------------------------------------------------------------- approval

  // What an approval of request `id` writes.
  ghost predicate Approves(a: Db, b: Db, id: Id, sid: Id, consent: Id, code: Digest, until: int, k: Code) {
    && id in a.requests && !a.requests[id].consumed && sid in a.sessions && until <= a.sessions[sid].expires
    && consent !in a.consents && code !in a.codes
    && k.consent == consent && k.redirect == a.requests[id].redirect && k.challenge == a.requests[id].challenge
    && b.requests == a.requests[id := a.requests[id].(consumed := true)]
    && b.consents == a.consents[consent :=
        Consent(a.sessions[sid].user, sid, a.requests[id].client, a.requests[id].resource,
                                                   a.requests[id].scope, until, false)]
    && b.codes == a.codes[code := k] && b.approvals == a.approvals[id := consent]
    && b.families == a.families && b.tokens == a.tokens && b.sessions == a.sessions
  }

  lemma DecideApproves(db: Db, resource: string, user: Id, sid: Id, id: Id, consent: Id, code: Digest, w: World)
    returns (until: int, k: Code)
    requires Decide(db, resource, user, sid, id, true, consent, code, w).1
    ensures var n := Decide(db, resource, user, sid, id, true, consent, code, w).0;
            Approves(db, n, id, sid, consent, code, until, k)
  {
    until := Min(w.now + 480 * MINUTE, db.sessions[sid].expires);
    k := Code(consent, db.requests[id].redirect, db.requests[id].challenge, w.now + 60 * SECOND, false);
  }

  lemma ApprovalGrows(a: Db, b: Db, id: Id, sid: Id, consent: Id, code: Digest, until: int, k: Code)
    requires ApprovalsOk(a) && Approves(a, b, id, sid, consent, code, until, k)
    ensures Grows(a, b)
  {
    assert id in a.approvals ==> ApprovalOk(a, id);
  }

  lemma ApprovalKeepsLineage(a: Db, b: Db, id: Id, sid: Id, consent: Id, code: Digest, until: int, k: Code)
    requires LineageOk(a) && Approves(a, b, id, sid, consent, code, until, k)
    ensures LineageOk(b)
  {
    ApprovalGrows(a, b, id, sid, consent, code, until, k);
    RowsStay(a, b);
    assert ComesFrom(b, code, id);
    assert ApprovalOk(b, id) && ConsentOk(b, consent);
  }

  lemma ApprovalKeepsUnique(a: Db, b: Db, id: Id, sid: Id, consent: Id, code: Digest, until: int, k: Code)
    requires ApprovalsOk(a) && CodesOk(a) && Unique(a) && Approves(a, b, id, sid, consent, code, until, k)
    ensures Unique(b)
  {
    assert forall r :: r in a.approvals ==> a.approvals[r] != consent by {
      assert forall r :: r in a.approvals ==> ApprovalOk(a, r);
    }
    forall m | m in a.codes ensures a.codes[m].consent != consent {
      var r: Id :| ComesFrom(a, m, r);
      assert ApprovalOk(a, r);
    }
  }

  lemma ApprovalKeeps(a: Db, b: Db, id: Id, sid: Id, consent: Id, code: Digest, until: int, k: Code)
    requires DbOk(a) && Approves(a, b, id, sid, consent, code, until, k)
    ensures DbOk(b)
  {
    ApprovalKeepsLineage(a, b, id, sid, consent, code, until, k);
    ApprovalKeepsUnique(a, b, id, sid, consent, code, until, k);
    forall f | f in b.families ensures Lives(b, f) {
      LivesOn(a, b, f);
    }
  }

  // ---------------------------------------------------------------- exchange

  // A family opened with `code` and its first token.
  ghost predicate OpensFamily(a: Db, b: Db, code: Digest, f: Fresh, row: Family, t: Token) {
    && code in a.codes && !a.codes[code].used && a.codes[code].consent in a.consents
    && f.id != 0 && f.id !in a.families && Insertable(a, f)
    && row.consent == a.codes[code].consent && row.expires <= a.consents[row.consent].expires
    && t.family == f.id && t.access == f.access && t.refresh == f.refresh && !t.rotated && t.expires <= row.expires
    && b.codes == a.codes[code := a.codes[code].(used := true)] && b.families == a.families[f.id := row]
    && b.tokens == a.tokens[f.token := t]
    && b.requests == a.requests && b.consents == a.consents && b.approvals == a.approvals && b.sessions == a.sessions
  }

  lemma ExchangeOpens(db: Db, resource: string, l: Lineage, code: Digest, client: string, redirect: string,
      challenge: string,
                      f: Fresh, w: World) returns (row: Family, t: Token)
    requires LookUpCode(db, code) == Some(l) && Exchange(db, resource, l, code, client, redirect, challenge, f, w).1
    ensures OpensFamily(db, Exchange(db, resource, l, code, client, redirect, challenge, f, w).0, code, f, row, t)
  {
    row := Family(l.consent, db.consents[l.consent].expires, false);
    t := Issued(f.id, f, row.expires, w.now);
  }

  lemma OpeningGrows(a: Db, b: Db, code: Digest, f: Fresh, row: Family, t: Token)
    requires OpensFamily(a, b, code, f, row, t)
    ensures Grows(a, b)
  {}

  lemma OpeningKeepsLineage(a: Db, b: Db, code: Digest, f: Fresh, row: Family, t: Token)
    requires LineageOk(a) && OpensFamily(a, b, code, f, row, t)
    ensures LineageOk(b)
  {
    OpeningGrows(a, b, code, f, row, t);
    RowsStay(a, b);
    assert Opens(b, code, f.id) && FamilyOk(b, f.id) && TokenOk(b, f.token);
  }

  // An unused code has opened no family.
  lemma NoFamilyYet(db: Db, code: Digest)
    requires FamiliesOk(db) && OneCode(db) && code in db.codes && !db.codes[code].used
    ensures forall g :: g in db.families ==> db.families[g].consent != db.codes[code].consent
  {
    forall g | g in db.families ensures db.families[g].consent != db.codes[code].consent {
      assert Opened(db, g);
      var k: Digest :| Opens(db, k, g);
    }
  }

  lemma OpeningKeepsUnique(a: Db, b: Db, code: Digest, f: Fresh, row: Family, t: Token)
    requires FamiliesOk(a) && TokensOk(a) && Unique(a) && OpensFamily(a, b, code, f, row, t)
    ensures Unique(b)
  {
    NoFamilyYet(a, code);
    assert forall u :: u in a.tokens ==> a.tokens[u].family != f.id by {
      assert forall u :: u in a.tokens ==> TokenOk(a, u);
    }
  }

  lemma OpeningKeeps(a: Db, b: Db, code: Digest, f: Fresh, row: Family, t: Token)
    requires DbOk(a) && OpensFamily(a, b, code, f, row, t)
    ensures DbOk(b)
  {
    OpeningKeepsLineage(a, b, code, f, row, t);
    OpeningKeepsUnique(a, b, code, f, row, t);
    OpeningKeepsLive(a, b, code, f, row, t);
  }

  lemma OpeningKeepsLive(a: Db, b: Db, code: Digest, f: Fresh, row: Family, t: Token)
    requires SomeLive(a) && OpensFamily(a, b, code, f, row, t)
    ensures SomeLive(b)
  {
    forall g | g in b.families ensures Lives(b, g) {
      if g == f.id {
        assert IsLive(b, g, f.token);
      } else {
        LivesOn(a, b, g);
      }
    }
  }

  // ---------------------------------------------------------------- rotation

  ghost predicate Rotates(a: Db, b: Db, gone: Id, f: Fresh, t: Token) {
    && gone in a.tokens && !a.tokens[gone].rotated && a.tokens[gone].family in a.families && Insertable(a, f)
    && t.family == a.tokens[gone].family && t.access == f.access && t.refresh == f.refresh && !t.rotated
    && t.expires <= a.families[t.family].expires
    && b.tokens == a.tokens[gone := a.tokens[gone].(rotated := true)][f.token := t]
    && b.requests == a.requests && b.consents == a.consents && b.approvals == a.approvals && b.sessions == a.sessions
    && b.codes == a.codes && b.families == a.families
  }

  lemma RefreshRotates(
        db: Db, resource: string, l: Lineage, digest: Digest, client: string, scope: string, f: Fresh, w: World)
    returns (t: Token)
    requires Refresh(db, resource, l, digest, client, scope, f, w).1.Rotated?
    ensures Rotates(db, Refresh(db, resource, l, digest, client, scope, f, w).0, l.token, f, t)
  {
    t := Issued(l.family, f, Min(db.consents[l.consent].expires, db.families[l.family].expires), w.now);
  }

  lemma RotationGrows(a: Db, b: Db, gone: Id, f: Fresh, t: Token)
    requires Rotates(a, b, gone, f, t)
    ensures Grows(a, b)
  {}

  lemma AboveTokensStay(a: Db, b: Db, gone: Id, f: Fresh, t: Token)
    requires LineageOk(a) && Rotates(a, b, gone, f, t)
    ensures ApprovalsOk(b) && CodesOk(b) && ConsentsOk(b) && FamiliesOk(b)
  {
    ApprovalsStay(a, b);
    CodesStay(a, b);
    ConsentsStay(a, b);
    FamiliesStay(a, b);
  }

  lemma RotationKeepsTokens(a: Db, b: Db, gone: Id, f: Fresh, t: Token)
    requires TokensOk(a) && Rotates(a, b, gone, f, t)
    ensures TokensOk(b)
  {
    forall u | u in b.tokens ensures TokenOk(b, u) {
      if u in a.tokens { assert TokenOk(a, u); }
    }
  }

  lemma RotationKeepsLineage(a: Db, b: Db, gone: Id, f: Fresh, t: Token)
    requires LineageOk(a) && Rotates(a, b, gone, f, t)
    ensures LineageOk(b)
  {
    AboveTokensStay(a, b, gone, f, t);
    RotationKeepsTokens(a, b, gone, f, t);
  }

  lemma RotationKeepsUnique(a: Db, b: Db, gone: Id, f: Fresh, t: Token)
    requires Unique(a) && Rotates(a, b, gone, f, t)
    ensures Unique(b)
  {}

  lemma RotationKeeps(a: Db, b: Db, gone: Id, f: Fresh, t: Token)
    requires DbOk(a) && Rotates(a, b, gone, f, t)
    ensures DbOk(b)
  {
    RotationKeepsLineage(a, b, gone, f, t);
    RotationKeepsUnique(a, b, gone, f, t);
    RotationKeepsLive(a, b, gone, f, t);
  }

  lemma RotationKeepsLive(a: Db, b: Db, gone: Id, f: Fresh, t: Token)
    requires SomeLive(a) && Rotates(a, b, gone, f, t)
    ensures SomeLive(b)
  {
    forall g | g in b.families ensures Lives(b, g) {
      if g == t.family {
        assert IsLive(b, g, f.token);
      } else {
        LivesOn(a, b, g);
      }
    }
  }

  // ---------------------------------------------------------------- every step

  ghost predicate Good(a: Db, b: Db) { Grows(a, b) && DbOk(b) }

  lemma DecisionIsGood(
        db: Db, resource: string, user: Id, sid: Id, id: Id, approve: bool, consent: Id, code: Digest, w: World)
    requires DbOk(db)
    ensures Good(db, Decide(db, resource, user, sid, id, approve, consent, code, w).0)
  {
    var (n, ok) := Decide(db, resource, user, sid, id, approve, consent, code, w);
    if ok && approve {
      var until, k := DecideApproves(db, resource, user, sid, id, consent, code, w);
      ApprovalGrows(db, n, id, sid, consent, code, until, k);
      ApprovalKeeps(db, n, id, sid, consent, code, until, k);
    } else {
      DenialMarks(db, resource, user, sid, id, approve, consent, code, w);
      MarkKeeps(db, n);
    }
  }

  lemma DenialMarks(
        db: Db, resource: string, user: Id, sid: Id, id: Id, approve: bool, consent: Id, code: Digest, w: World)
    requires approve ==> !Decide(db, resource, user, sid, id, approve, consent, code, w).1
    ensures Grows(db, Decide(db, resource, user, sid, id, approve, consent, code, w).0)
    ensures Marks(db, Decide(db, resource, user, sid, id, approve, consent, code, w).0)
  {}

  lemma ExchangeIsGood(db: Db, resource: string, l: Lineage, code: Digest, client: string, redirect: string,
      challenge: string,
                       f: Fresh, w: World)
    requires DbOk(db) && LookUpCode(db, code) == Some(l)
    ensures Good(db, Exchange(db, resource, l, code, client, redirect, challenge, f, w).0)
  {
    var (n, ok) := Exchange(db, resource, l, code, client, redirect, challenge, f, w);
    if ok {
      var row, t := ExchangeOpens(db, resource, l, code, client, redirect, challenge, f, w);
      OpeningGrows(db, n, code, f, row, t);
      OpeningKeeps(db, n, code, f, row, t);
    }
  }

  lemma RevocationIsGood(db: Db, family: Id)
    requires DbOk(db) && family in db.families
    ensures Good(db, RevokeFamily(db, family))
  {
    RevocationMarks(db, family);
    MarkKeeps(db, RevokeFamily(db, family));
  }

  lemma RevocationMarks(db: Db, family: Id)
    requires family in db.families
    ensures Grows(db, RevokeFamily(db, family)) && Marks(db, RevokeFamily(db, family))
  {}

  lemma RefreshIsGood(
        db: Db, resource: string, l: Lineage, digest: Digest, client: string, scope: string, f: Fresh, w: World)
    requires DbOk(db)
    ensures Good(db, Refresh(db, resource, l, digest, client, scope, f, w).0)
  {
    var (n, r) := Refresh(db, resource, l, digest, client, scope, f, w);
    if r.Rotated? {
      var t := RefreshRotates(db, resource, l, digest, client, scope, f, w);
      RotationGrows(db, n, l.token, f, t);
      RotationKeeps(db, n, l.token, f, t);
    } else if r.Replayed? {
      RevocationIsGood(db, l.family);
    }
  }

  ghost predicate Issues(e: Event) { e.Decided? || e.Exchanged? || e.Refreshes? }

  ghost predicate GrowsOnly(a: Db, b: Db) { Grows(a, b) && Marks(a, b) }

  lemma BeginMarks(
        db: Db, resource: string, id: Id, client: string, redirect: string, scope: string, challenge: string, now: int)
    ensures GrowsOnly(db, Begin(db, resource, id, client, redirect, scope, challenge, now))
  {}

  lemma RevokeMarks(db: Db, resource: string, l: Lineage, client: string, w: World)
    ensures GrowsOnly(db, Revoke(db, resource, l, client, w))
  {
    StandingMarks(db);
    if l.family in db.families { RevocationMarks(db, l.family); }
  }

  lemma DelegationMarks(db: Db, resource: string, user: Id, sid: Id, family: Id, w: World)
    ensures GrowsOnly(db, RevokeDelegation(db, resource, user, sid, family, w))
  {
    StandingMarks(db);
    if family in db.families { RevocationMarks(db, family); }
  }

  lemma SessionMarks(db: Db, sessions: map<Id, Session>)
    requires forall x :: x in db.sessions ==> x in sessions && SessionMoves(db.sessions[x], sessions[x])
    ensures GrowsOnly(db, db.(sessions := sessions))
  {}

  lemma ClientMarks(db: Db, clients: map<string, Client>)
    ensures GrowsOnly(db, db.(clients := clients))
  {}

  lemma ConsentMarks(db: Db, consent: Id)
    requires consent in db.consents
    ensures GrowsOnly(db, db.(consents := db.consents[consent := db.consents[consent].(revoked := true)]))
  {}

  lemma StandingMarks(db: Db)
    ensures GrowsOnly(db, db)
  {}

  lemma OtherStepMarks(s: System, resource: string, e: Event)
    requires !Issues(e)
    ensures GrowsOnly(s.db, Step(s, resource, e).db)
  {
    StandingMarks(s.db);
    match e
    case Requested(id, client, redirect, scope, challenge, now) =>
      BeginMarks(s.db, resource, id, client, redirect, scope, challenge, now);
    case Revokes(l, _, _, client, w) => RevokeMarks(s.db, resource, l, client, w);
    case RevokesDelegation(user, sid, family, w) => DelegationMarks(s.db, resource, user, sid, family, w);
    case SessionOpened(sid, session) =>
      if sid !in s.db.sessions { SessionMarks(s.db, s.db.sessions[sid := session]); }
    case SessionRevoked(sid) =>
      if sid in s.db.sessions { SessionMarks(s.db, s.db.sessions[sid := s.db.sessions[sid].(revoked := true)]); }
    case ClientSet(name, row) => ClientMarks(s.db, s.db.clients[name := row]);
    case ConsentRevoked(consent) => if consent in s.db.consents { ConsentMarks(s.db, consent); }
    case _ =>
  }

  lemma DecidedIsGood(s: System, resource: string, e: Event)
    requires Inv(s) && e.Decided?
    ensures Good(s.db, Step(s, resource, e).db)
  {
    DecisionIsGood(s.db, resource, e.user, e.sid, e.id, e.approve, e.consent, e.code, e.w);
  }

  lemma ExchangedIsGood(s: System, resource: string, e: Event)
    requires Inv(s) && e.Exchanged?
    ensures Good(s.db, Step(s, resource, e).db)
  {
    if OfCode(e.code, e.l) in s.seen {
      assert Sound(s.db, OfCode(e.code, e.l));
      ExchangeIsGood(s.db, resource, e.l, e.code, e.client, e.redirect, e.challenge, e.f, e.w);
    }
    StandingStillIsGood(s.db);
    ExchangedIsExchange(s, resource, e);
  }

  lemma ExchangedIsExchange(s: System, resource: string, e: Event)
    requires e.Exchanged?
    ensures Step(s, resource, e).db
         == if OfCode(e.code, e.l) in s.seen
            then Exchange(s.db, resource, e.l, e.code, e.client, e.redirect, e.challenge, e.f, e.w).0 else s.db
  {}

  lemma RefreshesIsGood(s: System, resource: string, e: Event)
    requires Inv(s) && e.Refreshes?
    ensures Good(s.db, Step(s, resource, e).db)
  {
    RefreshIsGood(s.db, resource, e.l, e.digest, e.client, e.scope, e.f, e.w);
    StandingStillIsGood(s.db);
    RefreshesIsRefresh(s, resource, e);
  }

  lemma RefreshesIsRefresh(s: System, resource: string, e: Event)
    requires e.Refreshes?
    ensures Step(s, resource, e).db
         == if OfToken(e.digest, true, e.l) in s.seen
            then Refresh(s.db, resource, e.l, e.digest, e.client, e.scope, e.f, e.w).0 else s.db
  {}

  lemma StandingStillIsGood(db: Db)
    requires DbOk(db)
    ensures Good(db, db)
  {}

  lemma StepIsGood(s: System, resource: string, e: Event)
    requires Inv(s)
    ensures Good(s.db, Step(s, resource, e).db)
  {
    if e.Decided? {
      DecidedIsGood(s, resource, e);
    } else if e.Exchanged? {
      ExchangedIsGood(s, resource, e);
    } else if e.Refreshes? {
      RefreshesIsGood(s, resource, e);
    } else {
      OtherStepMarks(s, resource, e);
      MarkKeeps(s.db, Step(s, resource, e).db);
    }
  }

  lemma StepKeepsInv(s: System, resource: string, e: Event)
    requires Inv(s)
    ensures Inv(Step(s, resource, e))
  {
    var n := Step(s, resource, e);
    StepIsGood(s, resource, e);
    forall x | x in n.seen ensures Sound(n.db, x) {
      if x in s.seen { SightingStaysSound(s.db, n.db, x); }
    }
  }

  lemma {:induction false} RunKeepsInv(s: System, resource: string, es: seq<Event>)
    requires Inv(s)
    ensures Inv(Run(s, resource, es))
    decreases es
  {
    if es != [] {
      StepKeepsInv(s, resource, es[0]);
      RunKeepsInv(Step(s, resource, es[0]), resource, es[1..]);
    }
  }

  lemma {:induction false} RunGrows(s: System, resource: string, es: seq<Event>)
    requires Inv(s)
    ensures Grows(s.db, Run(s, resource, es).db)
    decreases es
  {
    if es != [] {
      var n := Step(s, resource, es[0]);
      StepIsGood(s, resource, es[0]);
      StepKeepsInv(s, resource, es[0]);
      RunGrows(n, resource, es[1..]);
      GrowsIsTransitive(s.db, n.db, Run(n, resource, es[1..]).db);
    }
  }

  // A service with clients and sessions but nothing delegated yet.
  lemma NewServiceIsOk(clients: map<string, Client>, sessions: map<Id, Session>)
    ensures Inv(System(Db(clients, map[], map[], map[], map[], map[], sessions, map[]), {}))
  {}

  // ---------------------------------------------------------------- one family, one token

  ghost predicate Belongs(db: Db, f: Id, r: Id) {
    f in db.families && r in db.approvals && db.approvals[r] == db.families[f].consent
  }

  // Every family hangs from exactly one approved request, and no two from the same one.
  lemma OneFamilyPerApproval(s: System, resource: string, es: seq<Event>, f: Id)
    requires Inv(s) && f in Run(s, resource, es).db.families
    ensures var db := Run(s, resource, es).db;
            exists r :: Belongs(db, f, r) && forall g, q :: Belongs(db, g, q) ==> (g == f <==> q == r)
  {
    RunKeepsInv(s, resource, es);
    var db := Run(s, resource, es).db;
    assert Opened(db, f);
    var k: Digest :| Opens(db, k, f);
    assert CodeOk(db, k);
    var r: Id :| ComesFrom(db, k, r);
    assert Belongs(db, f, r);
  }

  lemma ExactlyOneLiveToken(s: System, resource: string, es: seq<Event>, f: Id)
    requires Inv(s) && f in Run(s, resource, es).db.families
    ensures var db := Run(s, resource, es).db; exists t :: IsLive(db, f, t) && forall u :: IsLive(db, f, u) ==> u == t
  {
    RunKeepsInv(s, resource, es);
    var db := Run(s, resource, es).db;
    assert Lives(db, f);
    var t: Id :| IsLive(db, f, t);
    assert forall u :: IsLive(db, f, u) ==> u == t;
  }

  // Two access tokens accepted under one approved request are the same token.
  lemma OneAccessTokenPerRequest(
        s: System, resource: string, r: Id, l: Lineage, x: Digest, w: World, m: Lineage, y: Digest, v: World)
    requires Inv(s) && OfToken(x, false, l) in s.seen && OfToken(y, false, m) in s.seen
    requires r in s.db.approvals && l.consent == s.db.approvals[r] && m.consent == s.db.approvals[r]
    requires Validate(s.db, resource, l, x, w).Some? && Validate(s.db, resource, m, y, v).Some?
    ensures l == m && x == y
  {
    assert Sound(s.db, OfToken(x, false, l)) && Sound(s.db, OfToken(y, false, m));
  }

  // The row a locked transaction finds by hash is the row the unlocked read found.
  lemma HashFindsTheRowRead(s: System, digest: Digest, refresh: bool, l: Lineage, t: Id)
    requires Inv(s) && OfToken(digest, refresh, l) in s.seen
    ensures TokenFor(s.db, t, digest, refresh) <==> t == l.token
  {
    assert Sound(s.db, OfToken(digest, refresh, l));
    assert t in s.db.tokens && t != l.token ==> Distinct(s.db.tokens[t], s.db.tokens[l.token]);
  }

  // ---------------------------------------------------------------- codes

  // A code is worth a family only to the client, redirect and challenge of its request.
  lemma CodeIsBoundToItsRequest(s: System, resource: string, l: Lineage, code: Digest, client: string, redirect: string,
                                challenge: string, f: Fresh, w: World)
    requires Inv(s) && OfCode(code, l) in s.seen
    requires Exchange(s.db, resource, l, code, client, redirect, challenge, f, w).1
    ensures exists r ::
              && ComesFrom(s.db, code, r) && s.db.approvals[r] == l.consent && s.db.requests[r].client == client
              && s.db.requests[r].redirect == redirect && s.db.requests[r].challenge == challenge
  {
    assert Sound(s.db, OfCode(code, l)) && CodeOk(s.db, code);
    var r: Id :| ComesFrom(s.db, code, r);
    assert ApprovalOk(s.db, r);
  }

  lemma UsedCodeIsSpent(s: System, resource: string, code: Digest, es: seq<Event>,
                        l: Lineage, client: string, redirect: string, challenge: string, f: Fresh, w: World)
    requires Inv(s) && code in s.db.codes && s.db.codes[code].used
    ensures !Exchange(Run(s, resource, es).db, resource, l, code, client, redirect, challenge, f, w).1
  {
    RunGrows(s, resource, es);
    assert CodeMoves(s.db.codes[code], Run(s, resource, es).db.codes[code]);
  }

  lemma CodeIsExchangedOnce(s: System, resource: string, e: Event, es: seq<Event>,
                            l: Lineage, client: string, redirect: string, challenge: string, f: Fresh, w: World)
    requires Inv(s) && e.Exchanged? && OfCode(e.code, e.l) in s.seen
    requires Exchange(s.db, resource, e.l, e.code, e.client, e.redirect, e.challenge, e.f, e.w).1
    ensures var later := Run(Step(s, resource, e), resource, es);
            !Exchange(later.db, resource, l, e.code, client, redirect, challenge, f, w).1
  {
    StepKeepsInv(s, resource, e);
    UsedCodeIsSpent(Step(s, resource, e), resource, e.code, es, l, client, redirect, challenge, f, w);
  }

  // ---------------------------------------------------------------- rotation and revocation

  // Nothing can be done with the family any more.
  ghost predicate Dead(db: Db, resource: string, f: Id) {
    && (forall l: Lineage, digest, w :: l.family == f ==> Validate(db, resource, l, digest, w).None?)
    && (forall l: Lineage, digest, client, scope, g, w :: l.family == f ==>
          Refresh(db, resource, l, digest, client, scope, g, w) == (db, Denied))
    && (forall p: Principal, client, now :: p.family == f ==> !GrantStands(db, resource, p, client, now))
    && (forall user, sid, client, t, w, p :: !Narrows(db, resource, user, sid, client, f, t, w, p))
  }

  lemma RevokedIsDead(db: Db, resource: string, f: Id)
    requires f in db.families && db.families[f].revoked
    ensures Dead(db, resource, f)
  {}

  lemma RevokedForever(s: System, resource: string, f: Id, es: seq<Event>)
    requires Inv(s) && f in s.db.families && s.db.families[f].revoked
    ensures Dead(Run(s, resource, es).db, resource, f)
  {
    RunGrows(s, resource, es);
    assert FamilyMoves(s.db.families[f], Run(s, resource, es).db.families[f]);
    RevokedIsDead(Run(s, resource, es).db, resource, f);
  }

  // A client that revokes one of its tokens ends the whole family for good.
  lemma RevocationIsFinal(s: System, resource: string, e: Event, es: seq<Event>)
    requires Inv(s) && e.Revokes? && OfToken(e.digest, e.refresh, e.l) in s.seen
    requires Admitted(s.db, resource, e.l, e.w) && s.db.consents[e.l.consent].client == e.client && e.w.auditOk
    ensures Dead(Run(Step(s, resource, e), resource, es).db, resource, e.l.family)
  {
    var n := Step(s, resource, e);
    SeenFamilyExists(s, OfToken(e.digest, e.refresh, e.l));
    RevokeTakes(s.db, resource, e.l, e.client, e.w);
    RevokesIsRevoke(s, resource, e);
    StepKeepsInv(s, resource, e);
    RevokedForever(n, resource, e.l.family, es);
  }

  lemma SeenFamilyExists(s: System, x: Sighting)
    requires SeenOk(s.db, s.seen) && x in s.seen && x.OfToken?
    ensures x.l.family in s.db.families
  {
    assert Sound(s.db, x);
  }

  lemma RevokesIsRevoke(s: System, resource: string, e: Event)
    requires (e.Revokes? && OfToken(e.digest, e.refresh, e.l) in s.seen) || e.RevokesDelegation?
    ensures Step(s, resource, e).db
         == if e.Revokes? then Revoke(s.db, resource, e.l, e.client, e.w)
            else RevokeDelegation(s.db, resource, e.user, e.sid, e.family, e.w)
  {}

  lemma RevokeTakes(db: Db, resource: string, l: Lineage, client: string, w: World)
    requires Admitted(db, resource, l, w) && db.consents[l.consent].client == client && w.auditOk
    requires l.family in db.families
    ensures var n := Revoke(db, resource, l, client, w); l.family in n.families && n.families[l.family].revoked
  {}

  // So does the human who consented, from any live session.
  lemma DelegationRevocationIsFinal(s: System, resource: string, e: Event, es: seq<Event>)
    requires Inv(s) && e.RevokesDelegation? && e.family in s.db.families
    requires SessionActive(s.db, e.user, e.sid, false, e.w)
    requires s.db.families[e.family].consent in s.db.consents && e.w.auditOk
    requires s.db.consents[s.db.families[e.family].consent].user == e.user
    requires s.db.consents[s.db.families[e.family].consent].resource == resource
    ensures Dead(Run(Step(s, resource, e), resource, es).db, resource, e.family)
  {
    var n := Step(s, resource, e);
    DelegationRevokeTakes(s.db, resource, e.user, e.sid, e.family, e.w);
    RevokesIsRevoke(s, resource, e);
    StepKeepsInv(s, resource, e);
    RevokedForever(n, resource, e.family, es);
  }

  lemma DelegationRevokeTakes(db: Db, resource: string, user: Id, sid: Id, family: Id, w: World)
    requires SessionActive(db, user, sid, false, w) && w.auditOk && family in db.families
    requires db.families[family].consent in db.consents
    requires db.consents[db.families[family].consent].user == user
    requires db.consents[db.families[family].consent].resource == resource
    ensures var n := RevokeDelegation(db, resource, user, sid, family, w);
        family in n.families && n.families[family].revoked
  {}

  // A request is decided once: approved or denied, no later decision on it succeeds.
  lemma DecidedOnce(s: System, resource: string, e: Event, es: seq<Event>,
                    user: Id, sid: Id, approve: bool, consent: Id, code: Digest, w: World)
    requires Inv(s) && e.Decided? && Decide(s.db, resource, e.user, e.sid, e.id, e.approve, e.consent, e.code, e.w).1
    ensures var later := Run(Step(s, resource, e), resource, es);
            Decide(later.db, resource, user, sid, e.id, approve, consent, code, w) == (later.db, false)
    ensures !e.approve ==> e.id !in Step(s, resource, e).db.approvals
  {
    var n := Step(s, resource, e);
    assert e.id in s.db.approvals ==> ApprovalOk(s.db, e.id);
    StepKeepsInv(s, resource, e);
    RunGrows(n, resource, es);
    assert RequestMoves(n.db.requests[e.id], Run(n, resource, es).db.requests[e.id]);
  }

  // A rotated refresh token never rotates again: presented while the lineage stands it
  // revokes the family for good, and otherwise it is refused.
  ghost predicate ReplayTrips(
        db: Db, resource: string, l: Lineage, digest: Digest, client: string, scope: string, f: Fresh, w: World)
  {
    var (n, r) := Refresh(db, resource, l, digest, client, scope, f, w);
    if MayRefresh(db, resource, l, digest, client, scope, w) && w.auditOk
    then r.Replayed? && Dead(n, resource, l.family)
    else r.Denied? && n == db
  }

  lemma RotatedTokenTrips(
        db: Db, resource: string, l: Lineage, digest: Digest, client: string, scope: string, f: Fresh, w: World)
    requires l.token in db.tokens && db.tokens[l.token].rotated
    ensures ReplayTrips(db, resource, l, digest, client, scope, f, w)
  {
    if MayRefresh(db, resource, l, digest, client, scope, w) && w.auditOk {
      RevokedIsDead(RevokeFamily(db, l.family), resource, l.family);
    }
  }

  lemma RotatedStaysRotated(s: System, resource: string, t: Id, es: seq<Event>)
    requires Inv(s) && t in s.db.tokens && s.db.tokens[t].rotated
    ensures t in Run(s, resource, es).db.tokens && Run(s, resource, es).db.tokens[t].rotated
  {
    RunGrows(s, resource, es);
    assert TokenMoves(s.db.tokens[t], Run(s, resource, es).db.tokens[t]);
  }

  lemma ReplayRevokesTheFamily(s: System, resource: string, e: Event, es: seq<Event>,
                               client: string, scope: string, f: Fresh, w: World)
    requires Inv(s) && e.Refreshes? && OfToken(e.digest, true, e.l) in s.seen
    requires Refresh(s.db, resource, e.l, e.digest, e.client, e.scope, e.f, e.w).1.Rotated?
    ensures ReplayTrips(Run(Step(s, resource, e), resource, es).db, resource, e.l, e.digest, client, scope, f, w)
  {
    StepKeepsInv(s, resource, e);
    RefreshesIsRefresh(s, resource, e);
    var t := RefreshRotates(s.db, resource, e.l, e.digest, e.client, e.scope, e.f, e.w);
    RotatedStaysRotated(Step(s, resource, e), resource, e.l.token, es);
    RotatedTokenTrips(Run(Step(s, resource, e), resource, es).db, resource, e.l, e.digest, client, scope, f, w);
  }

  // A revoked session ends what was delegated under it.
  lemma EndedSessionStaysEnded(
        s: System, resource: string, sid: Id, es: seq<Event>, l: Lineage, digest: Digest, w: World)
    requires Inv(s) && sid in s.db.sessions && s.db.sessions[sid].revoked && l.session == sid
    ensures var db := Run(s, resource, es).db;
            && Validate(db, resource, l, digest, w).None?
            && (forall client, scope, f :: Refresh(db, resource, l, digest, client, scope, f, w) == (db, Denied))
            && (forall client, redirect, challenge, f ::
                  !Exchange(db, resource, l, digest, client, redirect, challenge, f, w).1)
  {
    RunGrows(s, resource, es);
    assert SessionMoves(s.db.sessions[sid], Run(s, resource, es).db.sessions[sid]);
  }

  // ---------------------------------------------------------------- expiry

  ghost predicate Bounded(db: Db, t: Id) {
    && t in db.tokens && db.tokens[t].family in db.families && db.families[db.tokens[t].family].consent in db.consents
    && var f := db.families[db.tokens[t].family];
    && var c := db.consents[f.consent];
    && c.session in db.sessions && db.sessions[c.session].user == c.user
    && db.tokens[t].expires <= f.expires <= c.expires <= db.sessions[c.session].expires
  }

  lemma ExpiryNarrows(s: System, resource: string, es: seq<Event>, t: Id)
    requires Inv(s) && t in Run(s, resource, es).db.tokens
    ensures Bounded(Run(s, resource, es).db, t)
  {
    RunKeepsInv(s, resource, es);
    var db := Run(s, resource, es).db;
    assert TokenOk(db, t) && FamilyOk(db, db.tokens[t].family)
        && ConsentOk(db, db.families[db.tokens[t].family].consent);
  }

  // What a resource server is told outlives neither the session nor anything between.
  lemma ValidatedUntilTheTokenExpires(s: System, resource: string, l: Lineage, digest: Digest, w: World)
    requires Inv(s) && OfToken(digest, false, l) in s.seen && Validate(s.db, resource, l, digest, w).Some?
    ensures var p := Validate(s.db, resource, l, digest, w).value;
            && p.expires == s.db.tokens[l.token].expires && w.now < p.expires <= s.db.sessions[l.session].expires
            && s.db.sessions[l.session].user == p.user && !s.db.sessions[l.session].revoked
            && GrantStands(s.db, resource, p, p.client, w.now)
  {
    var db := s.db;
    assert Sound(db, OfToken(digest, false, l));
    assert TokenOk(db, l.token) && FamilyOk(db, l.family) && ConsentOk(db, l.consent);
  }

  // ---------------------------------------------------------------- new credentials work

  // The first of three ends.
  function Earliest(a: int, b: int, c: int): (m: int)
    ensures m <= a && m <= b && m <= c && m in {a, b, c}
  {
    if a <= b && a <= c then a else if b <= c then b else c
  }

  // In a later state a token that is still unrotated is accepted exactly until its stored
  // expiry, as long as its lineage and family stand.
  lemma UnrotatedTokenIsAccepted(a: Db, b: Db, resource: string, l: Lineage, w: World)
    requires TokensGrow(a, b) && FamiliesGrow(a, b) && l.token in a.tokens && l.family in a.families
    requires a.tokens[l.token].family == l.family && a.tokens[l.token].expires <= a.families[l.family].expires
    requires Admitted(b, resource, l, w) && !b.families[l.family].revoked && !b.tokens[l.token].rotated
    ensures Validate(b, resource, l, a.tokens[l.token].access, w).Some? <==> w.now < a.tokens[l.token].expires
  {
    assert TokenMoves(a.tokens[l.token], b.tokens[l.token]) && FamilyMoves(a.families[l.family], b.families[l.family]);
    ValidateInColumns(b, resource, l, a.tokens[l.token].access, w);
  }

  // Whether a token stored now is accepted in a later state.
  ghost predicate AcceptedLater(n: Db, m: Db, resource: string, l: Lineage, w: World) {
    && l.token in n.tokens && l.token in m.tokens && l.family in m.families
    && (Admitted(m, resource, l, w) && !m.families[l.family].revoked && !m.tokens[l.token].rotated ==>
          (Validate(m, resource, l, n.tokens[l.token].access, w).Some? <==> w.now < n.tokens[l.token].expires))
  }

  lemma TokenIsAcceptedLater(n: System, resource: string, es: seq<Event>, l: Lineage, w: World)
    requires Inv(n) && l.token in n.db.tokens && n.db.tokens[l.token].family == l.family
    ensures AcceptedLater(n.db, Run(n, resource, es).db, resource, l, w)
  {
    var m := Run(n, resource, es).db;
    assert TokenOk(n.db, l.token);
    RunGrows(n, resource, es);
    if Admitted(m, resource, l, w) && !m.families[l.family].revoked && !m.tokens[l.token].rotated {
      UnrotatedTokenIsAccepted(n.db, m, resource, l, w);
    }
  }

  lemma ExchangeIssues(s: System, resource: string, e: Event)
    requires e.Exchanged? && OfCode(e.code, e.l) in s.seen
    requires Exchange(s.db, resource, e.l, e.code, e.client, e.redirect, e.challenge, e.f, e.w).1
    ensures var n := Step(s, resource, e).db;
            && e.f.token in n.tokens && e.f.id in n.families && e.l.consent in s.db.consents
            && n.tokens[e.f.token].family == e.f.id && n.tokens[e.f.token].access == e.f.access
            && n.tokens[e.f.token].expires
               == Earliest(e.w.now + 600_000_000_000, s.db.consents[e.l.consent].expires, n.families[e.f.id].expires)
  {
    ExchangedIsExchange(s, resource, e);
    ExchangeInColumns(s.db, resource, e.l, e.code, e.client, e.redirect, e.challenge, e.f, e.w);
  }

  lemma RefreshIssues(s: System, resource: string, e: Event)
    requires e.Refreshes? && OfToken(e.digest, true, e.l) in s.seen
    requires Refresh(s.db, resource, e.l, e.digest, e.client, e.scope, e.f, e.w).1.Rotated?
    ensures var n := Step(s, resource, e).db;
            && e.f.token in n.tokens && e.l.family in s.db.families && e.l.consent in s.db.consents
            && n.tokens[e.f.token].family == e.l.family && n.tokens[e.f.token].access == e.f.access
            && n.tokens[e.f.token].expires
               == Earliest(e.w.now + 600_000_000_000, s.db.consents[e.l.consent].expires,
                           s.db.families[e.l.family].expires)
  {
    RefreshesIsRefresh(s, resource, e);
    RefreshInColumns(s.db, resource, e.l, e.digest, e.client, e.scope, e.f, e.w);
  }

  // The token an exchange issues ends after ten minutes or with the consent or family, and
  // whatever happens meanwhile it is accepted until then, while it is not rotated and its
  // session, consent, client and family stand.
  lemma ExchangedTokenIsAccepted(s: System, resource: string, e: Event, es: seq<Event>, w: World)
    requires Inv(s) && e.Exchanged? && OfCode(e.code, e.l) in s.seen
    requires Exchange(s.db, resource, e.l, e.code, e.client, e.redirect, e.challenge, e.f, e.w).1
    ensures var n := Step(s, resource, e);
            && e.f.token in n.db.tokens && e.f.id in n.db.families && e.l.consent in s.db.consents
            && n.db.tokens[e.f.token].access == e.f.access
            && n.db.tokens[e.f.token].expires
               == Earliest(e.w.now + 600_000_000_000, s.db.consents[e.l.consent].expires,
                           n.db.families[e.f.id].expires)
            && AcceptedLater(n.db, Run(n, resource, es).db, resource, e.l.(family := e.f.id, token := e.f.token), w)
  {
    ExchangeIssues(s, resource, e);
    StepKeepsInv(s, resource, e);
    TokenIsAcceptedLater(Step(s, resource, e), resource, es, e.l.(family := e.f.id, token := e.f.token), w);
  }

  // So is the token of a rotation.
  lemma RotatedInTokenIsAccepted(s: System, resource: string, e: Event, es: seq<Event>, w: World)
    requires Inv(s) && e.Refreshes? && OfToken(e.digest, true, e.l) in s.seen
    requires Refresh(s.db, resource, e.l, e.digest, e.client, e.scope, e.f, e.w).1.Rotated?
    ensures var n := Step(s, resource, e);
            && e.f.token in n.db.tokens && e.l.family in s.db.families && e.l.consent in s.db.consents
            && n.db.tokens[e.f.token].access == e.f.access
            && n.db.tokens[e.f.token].expires
               == Earliest(e.w.now + 600_000_000_000, s.db.consents[e.l.consent].expires,
                           s.db.families[e.l.family].expires)
            && AcceptedLater(n.db, Run(n, resource, es).db, resource, e.l.(token := e.f.token), w)
  {
    RefreshIssues(s, resource, e);
    StepKeepsInv(s, resource, e);
    TokenIsAcceptedLater(Step(s, resource, e), resource, es, e.l.(token := e.f.token), w);
  }

  // Undisturbed, an approval is worth a token: the code it makes is exchanged within its
  // minute by the client it was made for, and the token of that is accepted.
  lemma ApprovalIsWorthAToken(
      db: Db, resource: string, user: Id, sid: Id, id: Id, consent: Id, code: Digest, w: World,
      challenge: string, f: Fresh, v: World, x: World)
    requires Decide(db, resource, user, sid, id, true, consent, code, w).1
    requires db.requests[id].client != "" && db.requests[id].challenge == challenge
    requires f.id != 0 && f.id !in db.families && Insertable(db, f)
    requires v.guardOk && v.auditOk && w.now <= v.now < w.now + 60_000_000_000 && v.now < db.sessions[sid].expires
    requires x.guardOk && v.now <= x.now < v.now + 600_000_000_000 && x.now < db.sessions[sid].expires
    requires x.now < w.now + 28_800_000_000_000
    ensures var a := Decide(db, resource, user, sid, id, true, consent, code, w).0;
            var l := Lineage(consent, user, sid, 0, 0);
            var (r, token) := (db.requests[id], l.(family := f.id, token := f.token));
            var (b, ok) := Exchange(a, resource, l, code, r.client, r.redirect, challenge, f, v);
            && LookUpCode(a, code) == Some(l) && ok
            && Discovered(b, token, f.access, false)
            && Validate(b, resource, token, f.access, x).Some?
            && Validate(b, resource, token, f.access, x).value.user == user
            && Validate(b, resource, token, f.access, x).value.scope == r.scope
  {
    DecideInColumns(db, resource, user, sid, id, true, consent, code, w);
    SessionInColumns(db, user, sid, true, w);
    var a := Decide(db, resource, user, sid, id, true, consent, code, w).0;
    var l := Lineage(consent, user, sid, 0, 0);
    var r := db.requests[id];
    LineageInColumns(a, resource, l, v);
    SessionInColumns(a, user, sid, false, v);
    ExchangeInColumns(a, resource, l, code, r.client, r.redirect, challenge, f, v);
    var b := Exchange(a, resource, l, code, r.client, r.redirect, challenge, f, v).0;
    var token := l.(family := f.id, token := f.token);
    LineageInColumns(b, resource, token, x);
    SessionInColumns(b, user, sid, false, x);
    ValidateInColumns(b, resource, token, f.access, x);
  }
}
