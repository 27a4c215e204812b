/**
 Single-use identity proofs: backend/internal/identity/service.go (createProof,
 consume, ConfirmContact, ResetPassword) and team.go (AcceptInvitation), which
 share the guess counters of one table. A transaction works on a private copy of
 the database and either installs it or leaves no trace.
 */
module Proofs {
  import opened Wrappers

  type Id = nat
  // hashProof of a presented or issued proof value.
  type Digest = nat

  const SECOND := 1_000_000_000
  const MAX_ATTEMPTS := 5
  const PROOF_BUDGET := 5
  const RAW_LENGTH := 43

  datatype Purpose = ContactVerify | PasswordReset | Invite

  datatype Proof = Proof(
    user: Id, session: Option<Id>, purpose: Purpose, contact: string, hash: Digest,
    expires: int, consumed: bool, revoked: bool, attempts: nat, createdAt: int)

  datatype Session = Session(user: Id, revoked: bool)
  datatype Invitation = Invitation(org: Id, inviter: Id, target: Option<Id>, role: string, acceptedBy: Option<Id>,
      revoked: bool)

  // contacts holds the verified contacts (user, contact) with whether they are active.
  datatype Db = Db(
    proofs: map<Id, Proof>, contacts: map<(Id, string), bool>, sessions: map<Id, Session>,
    passwords: map<Id, string>, invitations: map<Id, Invitation>,
    members: map<(Id, Id), string>, owners: map<Id, Id>)

  datatype Caller = Caller(subject: Id, session: Id)
  datatype Guess = Guess(length: nat, digest: Digest)
  datatype Use = Confirm | Reset(password: string)

  // Outcome of the environment's calls inside one transaction: the authority guard
  // and the audit and outbox append that ends it.
  datatype World = World(guardOk: bool, auditOk: bool, now: int)

  datatype Result = Accepted | WrongGuess | Refused | Aborted

  predicate Live(p: Proof) { !p.consumed && !p.revoked }

  // ---------------------------------------------------------------- creation

  function Recent(db: Db, user: Id, purpose: Purpose, now: int): set<Id> {
    set id | id in db.proofs && db.proofs[id].user == user && db.proofs[id].purpose == purpose
             && db.proofs[id].createdAt > now - 3600 * SECOND
  }

  function Superseded(proofs: map<Id, Proof>, user: Id, purpose: Purpose): map<Id, Proof> {
    map id | id in proofs ::
      if proofs[id].user == user && proofs[id].purpose == purpose && Live(proofs[id])
      then proofs[id].(revoked := true) else proofs[id]
  }

  function Lifetime(purpose: Purpose): int { if purpose.Invite? then 86400 * SECOND else 900 * SECOND }

  // Fresh identifiers and the UNIQUE proof_hash column make an insert fail otherwise.
  predicate Insertable(db: Db, id: Id, digest: Digest) {
    id != 0 && id !in db.proofs && id !in db.invitations && forall other :: other in db.proofs ==>
        db.proofs[other].hash != digest
  }

  function Create(
        db: Db, id: Id, user: Id, session: Id, purpose: Purpose, contact: string, digest: Digest, w: World)
    : (Db, bool)
  {
    if |Recent(db, user, purpose, w.now)| >= PROOF_BUDGET || !Insertable(db, id, digest) || !w.auditOk then (db, false)
    else
      var kept := if purpose.Invite? then db.proofs else Superseded(db.proofs, user, purpose);
      var sid := if session == 0 then None else Some(session);
      (db.(proofs := kept[id :=
          Proof(user, sid, purpose, contact, digest, w.now + Lifetime(purpose), false, false, 0, w.now)]), true)
  }

  // ---------------------------------------------------------------- consumption

  predicate Usable(p: Proof, purpose: Purpose, now: int) {
    p.purpose == purpose && !p.consumed && !p.revoked && p.expires > now && p.attempts < MAX_ATTEMPTS
  }

  predicate CallerOk(p: Proof, purpose: Purpose, c: Caller, w: World) {
    w.guardOk && (purpose.ContactVerify? ==> c.subject == p.user && p.session == Some(c.session))
  }

  // Does the guess get as far as being compared with the stored hash?
  predicate Compared(db: Db, id: Id, purpose: Purpose, c: Caller, g: Guess, w: World) {
    && id != 0 && g.length == RAW_LENGTH && id in db.proofs
    && CallerOk(db.proofs[id], purpose, c, w) && Usable(db.proofs[id], purpose, w.now)
  }

  function Miss(p: Proof): Proof {
    p.(attempts := p.attempts + 1, revoked := p.attempts + 1 >= MAX_ATTEMPTS)
  }

  predicate ActiveContact(db: Db, user: Id, contact: string) {
    (user, contact) in db.contacts && db.contacts[(user, contact)]
  }

  predicate TakenByOther(db: Db, user: Id, contact: string) {
    exists k :: k in db.contacts && k.1 == contact && db.contacts[k] && k.0 != user
  }

  function PurposeOf(use: Use): Purpose { if use.Confirm? then ContactVerify else PasswordReset }

  // The effect a correct guess buys, before the proof itself is marked consumed.
  function Effect(db: Db, id: Id, use: Use): Option<Db>
    requires id in db.proofs
  {
    var row := db.proofs[id];
    match use
    case Confirm =>
      if TakenByOther(db, row.user, row.contact) then None
      else Some(db.(contacts := db.contacts[(row.user, row.contact) := true]))
    case Reset(password) =>
      if !ActiveContact(db, row.user, row.contact) then None
      else Some(db.(
        passwords := db.passwords[row.user := password],
        sessions := map s | s in db.sessions ::
          if db.sessions[s].user == row.user then db.sessions[s].(revoked := true) else db.sessions[s],
        proofs := map p | p in db.proofs ::
          if db.proofs[p].user == row.user && p != id && !db.proofs[p].consumed
          then db.proofs[p].(revoked := true) else db.proofs[p]))
  }

  function Consume(db: Db, id: Id, use: Use, c: Caller, g: Guess, w: World): (Db, Result) {
    if !Compared(db, id, PurposeOf(use), c, g, w) then (db, Refused)
    else if g.digest != db.proofs[id].hash then
      if w.auditOk then (db.(proofs := db.proofs[id := Miss(db.proofs[id])]), WrongGuess) else (db, Aborted)
    else
      match Effect(db, id, use)
      case None => (db, Refused)
      case Some(done) =>
        if w.auditOk && id in done.proofs
        then (done.(proofs := done.proofs[id := done.proofs[id].(consumed := true)]), Accepted)
        else (db, Aborted)
  }

  predicate AcceptCompared(db: Db, id: Id, g: Guess, w: World) {
    && id != 0 && g.length == RAW_LENGTH && id in db.invitations && w.guardOk && id in db.proofs
    && db.invitations[id].acceptedBy.None? && !db.invitations[id].revoked
    && db.proofs[id].user == db.invitations[id].inviter && Usable(db.proofs[id], Invite, w.now)
  }

  // Addressee, owner-demotion and existing-membership checks of an invitation.
  predicate MayJoin(db: Db, id: Id, c: Caller)
    requires id in db.invitations && id in db.proofs
  {
    var inv := db.invitations[id];
    && (if inv.target.Some? then inv.target.value == c.subject else ActiveContact(db, c.subject, db.proofs[id].contact))
    && inv.org in db.owners && !(db.owners[inv.org] == c.subject && inv.role != "admin")
    && (inv.org, c.subject) !in db.members
  }

  function Accept(db: Db, id: Id, c: Caller, g: Guess, w: World): (Db, Result) {
    if !AcceptCompared(db, id, g, w) then (db, Refused)
    else if g.digest != db.proofs[id].hash then
      if w.auditOk then (db.(proofs := db.proofs[id := Miss(db.proofs[id])]), WrongGuess) else (db, Aborted)
    else if !MayJoin(db, id, c) then (db, Refused)
    else if !w.auditOk then (db, Aborted)
    else
      var inv := db.invitations[id];
      (db.(members := db.members[(inv.org, c.subject) := inv.role],
           invitations := db.invitations[id := inv.(acceptedBy := Some(c.subject))],
           proofs := db.proofs[id := db.proofs[id].(consumed := true)]), Accepted)
  }

  function RevokeInvitation(db: Db, id: Id, org: Id, w: World): Db {
    if w.guardOk && w.auditOk && id in db.invitations && db.invitations[id].org == org && id in db.proofs
    then db.(invitations := db.invitations[id := db.invitations[id].(revoked := true)],
             proofs := db.proofs[id := db.proofs[id].(revoked := true)])
    else db
  }

  // ---------------------------------------------------------------- the transactions in terms of columns

  // A proof is stored when fewer than five of its user and purpose are younger than an
  // hour, with its lifetime; unless it is an invitation it revokes the live ones before it.
  lemma CreateInColumns(
      db: Db, id: Id, user: Id, session: Id, purpose: Purpose, contact: string, digest: Digest, w: World)
    ensures var (s, ok) := Create(db, id, user, session, purpose, contact, digest, w);
            var recent := set p | && p in db.proofs && db.proofs[p].user == user && db.proofs[p].purpose == purpose
                                  && db.proofs[p].createdAt + 3_600_000_000_000 > w.now;
            && (ok <==> && |recent| < 5 && id != 0 && id !in db.proofs && id !in db.invitations && w.auditOk
                        && forall p :: p in db.proofs ==> db.proofs[p].hash != digest)
            && (!ok ==> s == db)
            && (ok ==>
                  && s == db.(proofs := s.proofs) && s.proofs.Keys == db.proofs.Keys + {id}
                  && s.proofs[id] == Proof(
                       user, if session == 0 then None else Some(session), purpose, contact, digest,
                       w.now + (if purpose == Invite then 86_400_000_000_000 else 900_000_000_000),
                       false, false, 0, w.now)
                  && forall p :: p in db.proofs ==>
                       s.proofs[p]
                       == if && purpose != Invite && db.proofs[p].user == user && db.proofs[p].purpose == purpose
                             && !db.proofs[p].consumed && !db.proofs[p].revoked
                          then db.proofs[p].(revoked := true) else db.proofs[p])
  {
    assert Recent(db, user, purpose, w.now)
        == set p | && p in db.proofs && db.proofs[p].user == user && db.proofs[p].purpose == purpose
                   && db.proofs[p].createdAt + 3_600_000_000_000 > w.now;
  }

  // The presented value meets the stored hash exactly for a standing proof of the right
  // purpose with guesses left, and for a confirmation only in its own user's session.
  lemma ComparedInColumns(db: Db, id: Id, use: Use, c: Caller, g: Guess, w: World)
    ensures Compared(db, id, PurposeOf(use), c, g, w) <==>
            && id != 0 && g.length == 43 && w.guardOk && id in db.proofs
            && var p := db.proofs[id];
            && p.purpose == (if use.Confirm? then ContactVerify else PasswordReset)
            && w.now < p.expires && !p.consumed && !p.revoked && p.attempts < 5
            && (use.Confirm? ==> c.subject == p.user && p.session == Some(c.session))
  {}

  // Its four outcomes. A match confirms a contact that no other user holds, or resets the
  // password of a user who still holds it; a miss costs one of five guesses.
  lemma ConsumeInColumns(db: Db, id: Id, use: Use, c: Caller, g: Guess, w: World)
    ensures var (s, result) := Consume(db, id, use, c, g, w);
            if !Compared(db, id, PurposeOf(use), c, g, w) then (s, result) == (db, Refused)
            else
              var p := db.proofs[id];
              if g.digest != p.hash then
                if !w.auditOk then (s, result) == (db, Aborted)
                else
                  && result == WrongGuess
                  && s == db.(proofs := db.proofs[id := p.(attempts := p.attempts + 1, revoked := p.attempts == 4)])
              else if !MayUse(db, p, use) then (s, result) == (db, Refused)
              else if !w.auditOk then (s, result) == (db, Aborted)
              else
                && result == Accepted
                && (use.Confirm? ==>
                      s == db.(contacts := db.contacts[(p.user, p.contact) := true],
                               proofs := db.proofs[id := p.(consumed := true)]))
                && (use.Reset? ==> IsReset(db, s, id, use.password))
  {
    ComparedInColumns(db, id, use, c, g, w);
  }

  predicate MayUse(db: Db, p: Proof, use: Use) {
    match use
    case Confirm => forall k :: k in db.contacts && k.1 == p.contact && db.contacts[k] ==> k.0 == p.user
    case Reset(_) => (p.user, p.contact) in db.contacts && db.contacts[(p.user, p.contact)]
  }

  // The password is replaced, the user's sessions and other unspent proofs are revoked and
  // this one is spent.
  ghost predicate IsReset(db: Db, s: Db, id: Id, password: string)
    requires id in db.proofs
  {
    var user := db.proofs[id].user;
    && s == db.(passwords := db.passwords[user := password], sessions := s.sessions, proofs := s.proofs)
    && s.sessions.Keys == db.sessions.Keys && s.proofs.Keys == db.proofs.Keys
    && (forall x :: x in db.sessions ==>
          s.sessions[x] == if db.sessions[x].user == user then Session(user, true) else db.sessions[x])
    && (forall p :: p in db.proofs ==>
          s.proofs[p] == if p == id then db.proofs[p].(consumed := true)
                         else if db.proofs[p].user == user && !db.proofs[p].consumed
                         then db.proofs[p].(revoked := true) else db.proofs[p])
  }

  // The same for an invitation, which must be open and still its inviter's.
  lemma AcceptComparedInColumns(db: Db, id: Id, g: Guess, w: World)
    ensures AcceptCompared(db, id, g, w) <==>
            && id != 0 && g.length == 43 && w.guardOk && id in db.proofs && id in db.invitations
            && var (p, i) := (db.proofs[id], db.invitations[id]);
            && p.purpose == Invite && w.now < p.expires && !p.consumed && !p.revoked && p.attempts < 5
            && p.user == i.inviter && i.acceptedBy.None? && !i.revoked
  {}

  // Its outcomes. A match makes the addressee, who is not yet a member, one with the role
  // offered; an owner only as an admin.
  lemma AcceptInColumns(db: Db, id: Id, c: Caller, g: Guess, w: World)
    ensures var (s, result) := Accept(db, id, c, g, w);
            if !AcceptCompared(db, id, g, w) then (s, result) == (db, Refused)
            else
              var (p, i) := (db.proofs[id], db.invitations[id]);
              if g.digest != p.hash then
                if !w.auditOk then (s, result) == (db, Aborted)
                else
                  && result == WrongGuess
                  && s == db.(proofs := db.proofs[id := p.(attempts := p.attempts + 1, revoked := p.attempts == 4)])
              else if !MayAccept(db, p, i, c.subject) then (s, result) == (db, Refused)
              else if !w.auditOk then (s, result) == (db, Aborted)
              else
                && result == Accepted
                && s == db.(members := db.members[(i.org, c.subject) := i.role],
                            invitations := db.invitations[id := i.(acceptedBy := Some(c.subject))],
                            proofs := db.proofs[id := p.(consumed := true)])
  {
    AcceptComparedInColumns(db, id, g, w);
  }

  predicate MayAccept(db: Db, p: Proof, i: Invitation, subject: Id) {
    && (i.target == Some(subject)
        || (i.target.None? && (subject, p.contact) in db.contacts && db.contacts[(subject, p.contact)]))
    && (i.org, subject) !in db.members
    && i.org in db.owners && (db.owners[i.org] == subject ==> i.role == "admin")
  }

  // An admin's withdrawal revokes an invitation of that organization and its proof.
  lemma RevokeInColumns(db: Db, id: Id, org: Id, w: World)
    ensures RevokeInvitation(db, id, org, w)
         == if w.guardOk && w.auditOk && id in db.proofs && id in db.invitations && db.invitations[id].org == org
            then db.(invitations := db.invitations[id := db.invitations[id].(revoked := true)],
                     proofs := db.proofs[id := db.proofs[id].(revoked := true)])
            else db
  {}

  // ---------------------------------------------------------------- the service

  class Service {
    var db: Db

    constructor (initial: Db)
      ensures db == initial
    {
      db := initial;
    }

    method CreateProof(id: Id, user: Id, session: Id, purpose: Purpose, contact: string, digest: Digest, w: World)
      returns (ok: bool)
      modifies this
      ensures (db, ok) == Create(old(db), id, user, session, purpose, contact, digest, w)
    {
      var tx := db;
      if |Recent(tx, user, purpose, w.now)| >= PROOF_BUDGET {
        return false;
      }
      if !Insertable(tx, id, digest) {
        return false;
      }
      if purpose != Invite {
        tx := tx.(proofs := Superseded(tx.proofs, user, purpose));
      }
      var sid := if session == 0 then None else Some(session);
      var row := Proof(user, sid, purpose, contact, digest, w.now + Lifetime(purpose), false, false, 0, w.now);
      tx := tx.(proofs := tx.proofs[id := row]);
      if !w.auditOk {
        return false;
      }
      db := tx;
      return true;
    }

    method ConsumeProof(id: Id, use: Use, c: Caller, g: Guess, w: World) returns (result: Result)
      modifies this
      ensures (db, result) == Consume(old(db), id, use, c, g, w)
    {
      if id == 0 || g.length != RAW_LENGTH || id !in db.proofs {
        return Refused;
      }
      var tx := db;
      var row := tx.proofs[id];
      if !w.guardOk {
        return Refused;
      }
      if use.Confirm? && (c.subject != row.user || row.session.None? || c.session != row.session.value) {
        return Refused;
      }
      if row.purpose != PurposeOf(use) || row.consumed || row.revoked || row.expires <= w.now
          || row.attempts >= MAX_ATTEMPTS {
        return Refused;
      }
      if g.digest != row.hash {
        tx := tx.(proofs := tx.proofs[id := Miss(row)]);
        if !w.auditOk {
          return Aborted;
        }
        db := tx;
        return WrongGuess;
      }
      match use {
        case Confirm =>
          if TakenByOther(tx, row.user, row.contact) {
            return Refused;
          }
          tx := tx.(contacts := tx.contacts[(row.user, row.contact) := true]);
        case Reset(password) =>
          if !ActiveContact(tx, row.user, row.contact) {
            return Refused;
          }
          tx := tx.(passwords := tx.passwords[row.user := password]);
          tx := tx.(sessions := map s | s in tx.sessions ::
            if tx.sessions[s].user == row.user then tx.sessions[s].(revoked := true) else tx.sessions[s]);
          tx := tx.(proofs := map p | p in tx.proofs ::
            if tx.proofs[p].user == row.user && p != id && !tx.proofs[p].consumed
            then tx.proofs[p].(revoked := true) else tx.proofs[p]);
      }
      tx := tx.(proofs := tx.proofs[id := tx.proofs[id].(consumed := true)]);
      if !w.auditOk {
        return Aborted;
      }
      db := tx;
      return Accepted;
    }

    method AcceptInvitation(id: Id, c: Caller, g: Guess, w: World) returns (result: Result)
      modifies this
      ensures (db, result) == Accept(old(db), id, c, g, w)
    {
      if id == 0 || g.length != RAW_LENGTH || id !in db.invitations || !w.guardOk || id !in db.proofs {
        return Refused;
      }
      var tx := db;
      var inv := tx.invitations[id];
      if inv.acceptedBy.Some? || inv.revoked {
        return Refused;
      }
      var row := tx.proofs[id];
      if row.purpose != Invite || row.user != inv.inviter || row.consumed || row.revoked
         || row.attempts >= MAX_ATTEMPTS || row.expires <= w.now {
        return Refused;
      }
      if g.digest != row.hash {
        tx := tx.(proofs := tx.proofs[id := Miss(row)]);
        if !w.auditOk {
          return Aborted;
        }
        db := tx;
        return WrongGuess;
      }
      if inv.target.Some? {
        if inv.target.value != c.subject {
          return Refused;
        }
      } else if !ActiveContact(tx, c.subject, row.contact) {
        return Refused;
      }
      if inv.org !in tx.owners || (tx.owners[inv.org] == c.subject && inv.role != "admin") {
        return Refused;
      }
      if (inv.org, c.subject) in tx.members {
        return Refused;
      }
      tx := tx.(members := tx.members[(inv.org, c.subject) := inv.role]);
      tx := tx.(invitations := tx.invitations[id := inv.(acceptedBy := Some(c.subject))]);
      tx := tx.(proofs := tx.proofs[id := row.(consumed := true)]);
      if !w.auditOk {
        return Aborted;
      }
      db := tx;
      return Accepted;
    }
  }

  // ---------------------------------------------------------------- the runs

  // `Outside` stands for every other transaction: it may replace sessions, passwords,
  // members and owners, deactivate contacts and withdraw invitations, but no other
  // transaction touches proofs.
  datatype Event =
    | CreateEvent(id: Id, user: Id, session: Id, purpose: Purpose, contact: string, digest: Digest, w: World)
    | InviteEvent(id: Id, user: Id, session: Id, contact: string, digest: Digest, invitation: Invitation, w: World)
    | ConsumeEvent(id: Id, use: Use, caller: Caller, guess: Guess, w: World)
    | AcceptEvent(id: Id, caller: Caller, guess: Guess, w: World)
    | RevokeEvent(id: Id, org: Id, w: World)
    | Outside(sessions: map<Id, Session>, passwords: map<Id, string>, members: map<(Id, Id), string>,
              owners: map<Id, Id>, dropped: set<(Id, string)>, withdrawn: set<Id>)

  function Step(db: Db, e: Event): Db {
    match e
    case CreateEvent(id, user, session, purpose, contact, digest, w) =>
      if purpose.Invite? then db else Create(db, id, user, session, purpose, contact, digest, w).0
    case InviteEvent(id, user, session, contact, digest, invitation, w) =>
      var (next, ok) := Create(db, id, user, session, Invite, contact, digest, w);
      if !ok || !w.guardOk then db
      else next.(invitations :=
          next.invitations[id := invitation.(inviter := user, acceptedBy := None, revoked := false)])
    case ConsumeEvent(id, use, caller, guess, w) => Consume(db, id, use, caller, guess, w).0
    case AcceptEvent(id, caller, guess, w) => Accept(db, id, caller, guess, w).0
    case RevokeEvent(id, org, w) => RevokeInvitation(db, id, org, w)
    case Outside(sessions, passwords, members, owners, dropped, withdrawn) =>
      db.(sessions := sessions, passwords := passwords, members := members, owners := owners,
          contacts := map k | k in db.contacts :: db.contacts[k] && k !in dropped,
          invitations := map i | i in db.invitations ::
            if i in withdrawn then db.invitations[i].(revoked := true) else db.invitations[i])
  }

  function Run(db: Db, es: seq<Event>): Db
    decreases es
  {
    if es == [] then db else Run(Step(db, es[0]), es[1..])
  }

  // A new proof works for fifteen minutes, for its user in its session and nobody else
  // when it confirms a contact, and not a moment longer.
  lemma NewProofWorksForItsTime(
      db: Db, id: Id, user: Id, session: Id, contact: string, digest: Digest, w: World, use: Use, c: Caller,
      later: World)
    requires Create(db, id, user, session, if use.Confirm? then ContactVerify else PasswordReset,
                    contact, digest, w).1
    requires later.guardOk && later.auditOk
    ensures var purpose := if use.Confirm? then ContactVerify else PasswordReset;
            var s := Create(db, id, user, session, purpose, contact, digest, w).0;
            Consume(s, id, use, c, Guess(43, digest), later).1.Accepted? <==>
            && later.now < w.now + 900_000_000_000 && MayUse(s, s.proofs[id], use)
            && (use.Confirm? ==> c == Caller(user, session) && session != 0)
  {
    var purpose := if use.Confirm? then ContactVerify else PasswordReset;
    CreateInColumns(db, id, user, session, purpose, contact, digest, w);
    var s := Create(db, id, user, session, purpose, contact, digest, w).0;
    ConsumeInColumns(s, id, use, c, Guess(43, digest), later);
    ComparedInColumns(s, id, use, c, Guess(43, digest), later);
  }

  // A new invitation works for a day, for its addressee.
  lemma NewInvitationWorksForItsTime(
      db: Db, id: Id, user: Id, session: Id, contact: string, digest: Digest, i: Invitation, w: World,
      c: Caller, later: World)
    requires Create(db, id, user, session, Invite, contact, digest, w).1 && w.guardOk
    requires later.guardOk && later.auditOk
    ensures var s := Step(db, InviteEvent(id, user, session, contact, digest, i, w));
            && id in s.proofs && id in s.invitations
            && s.invitations[id] == Invitation(i.org, user, i.target, i.role, None, false)
            && (Accept(s, id, c, Guess(43, digest), later).1.Accepted? <==>
                later.now < w.now + 86_400_000_000_000 && MayAccept(s, s.proofs[id], s.invitations[id], c.subject))
  {
    CreateInColumns(db, id, user, session, Invite, contact, digest, w);
    var s := Step(db, InviteEvent(id, user, session, contact, digest, i, w));
    AcceptInColumns(s, id, c, Guess(43, digest), later);
    AcceptComparedInColumns(s, id, Guess(43, digest), later);
  }

  // The event compares a wrong value with the stored hash of proof `id`.
  predicate Misses(db: Db, e: Event, id: Id) {
    match e
    case ConsumeEvent(i, use, caller, guess, w) =>
      i == id && Compared(db, id, PurposeOf(use), caller, guess, w) && guess.digest != db.proofs[id].hash
    case AcceptEvent(i, caller, guess, w) =>
      i == id && AcceptCompared(db, id, guess, w) && guess.digest != db.proofs[id].hash
    case _ => false
  }

  predicate Applies(db: Db, e: Event, id: Id) {
    match e
    case ConsumeEvent(i, use, caller, guess, w) => i == id && Consume(db, id, use, caller, guess, w).1.Accepted?
    case AcceptEvent(i, caller, guess, w) => i == id && Accept(db, id, caller, guess, w).1.Accepted?
    case _ => false
  }

  predicate Commits(e: Event) { (e.ConsumeEvent? || e.AcceptEvent?) && e.w.auditOk }

  function MissCount(db: Db, es: seq<Event>, id: Id): nat
    decreases es
  {
    if es == [] then 0
    else (if Misses(db, es[0], id) then 1 else 0) + MissCount(Step(db, es[0]), es[1..], id)
  }

  function AbortedMissCount(db: Db, es: seq<Event>, id: Id): nat
    decreases es
  {
    if es == [] then 0
    else (if Misses(db, es[0], id) && !Commits(es[0]) then 1 else 0) + AbortedMissCount(Step(db, es[0]), es[1..], id)
  }

  function ApplyCount(db: Db, es: seq<Event>, id: Id): nat
    decreases es
  {
    if es == [] then 0
    else (if Applies(db, es[0], id) then 1 else 0) + ApplyCount(Step(db, es[0]), es[1..], id)
  }

  ghost predicate OneLive(proofs: map<Id, Proof>) {
    forall a, b :: (a in proofs && b in proofs && Live(proofs[a]) && Live(proofs[b])
                    && proofs[a].user == proofs[b].user && proofs[a].purpose == proofs[b].purpose
                    && !proofs[a].purpose.Invite?) ==> a == b
  }

  ghost predicate ContactsExclusive(contacts: map<(Id, string), bool>) {
    forall k, l :: k in contacts && l in contacts && contacts[k] && contacts[l] && k.1 == l.1 ==> k == l
  }

  ghost predicate CountersOk(proofs: map<Id, Proof>) {
    forall id :: id in proofs ==> proofs[id].attempts <= MAX_ATTEMPTS
  }

  ghost predicate InvitationsOk(db: Db) {
    forall id :: id in db.invitations ==>
      && id in db.proofs && db.proofs[id].purpose.Invite?
      && (db.invitations[id].acceptedBy.Some? ==> db.proofs[id].consumed)
  }

  ghost predicate Ok(db: Db) {
    OneLive(db.proofs) && ContactsExclusive(db.contacts) && CountersOk(db.proofs) && InvitationsOk(db)
  }

  // Flags only ever rise, the identity of a proof never changes, attempts only grow.
  ghost predicate ProofStep(a: Proof, b: Proof) {
    && b == a.(consumed := b.consumed, revoked := b.revoked, attempts := b.attempts)
    && (a.consumed ==> b.consumed) && (a.revoked ==> b.revoked)
    && a.attempts <= b.attempts <= (if a.attempts < MAX_ATTEMPTS then a.attempts + 1 else a.attempts)
  }

  ghost predicate ProofsStep(before: map<Id, Proof>, after: map<Id, Proof>) {
    before.Keys <= after.Keys && forall id :: id in before ==> ProofStep(before[id], after[id])
  }

  lemma SupersededSteps(proofs: map<Id, Proof>, user: Id, purpose: Purpose)
    ensures ProofsStep(proofs, Superseded(proofs, user, purpose))
    ensures Superseded(proofs, user, purpose).Keys == proofs.Keys
  {}

  lemma CreateSteps(db: Db, id: Id, user: Id, session: Id, purpose: Purpose, contact: string, digest: Digest, w: World)
    ensures var (s, ok) := Create(db, id, user, session, purpose, contact, digest, w);
            && ProofsStep(db.proofs, s.proofs)
            && s == db.(proofs := s.proofs)
            && (ok ==>
                  && s.proofs.Keys == db.proofs.Keys + {id} && s.proofs[id].purpose == purpose
                  && s.proofs[id].user == user && s.proofs[id].createdAt == w.now)
            && (!ok ==> s == db)
  {
    var (s, ok) := Create(db, id, user, session, purpose, contact, digest, w);
    if ok {
      var kept := if purpose.Invite? then db.proofs else Superseded(db.proofs, user, purpose);
      SupersededSteps(db.proofs, user, purpose);
      StandingSteps(db.proofs);
      AddingSteps(db.proofs, kept, id, s.proofs[id]);
    } else {
      StandingSteps(db.proofs);
    }
  }

  lemma StandingSteps(proofs: map<Id, Proof>)
    ensures ProofsStep(proofs, proofs)
  {}

  lemma AddingSteps(proofs: map<Id, Proof>, kept: map<Id, Proof>, id: Id, p: Proof)
    requires ProofsStep(proofs, kept) && kept.Keys == proofs.Keys && id !in proofs
    ensures ProofsStep(proofs, kept[id := p]) && kept[id := p].Keys == proofs.Keys + {id}
  {}

  lemma AddingKeepsOneLive(proofs: map<Id, Proof>, kept: map<Id, Proof>, id: Id, p: Proof)
    requires OneLive(proofs) && id !in proofs
    requires kept == (if p.purpose.Invite? then proofs else Superseded(proofs, p.user, p.purpose))
    ensures OneLive(kept[id := p])
  {
    var after := kept[id := p];
    forall a, b | a in after && b in after && Live(after[a]) && Live(after[b])
                  && after[a].user == after[b].user && after[a].purpose == after[b].purpose && !after[a].purpose.Invite?
      ensures a == b
    {
      if a != id && b != id {
        assert a in proofs && b in proofs && Live(proofs[a]) && Live(proofs[b]);
      }
    }
  }

  lemma CreateKeepsOneLive(
        db: Db, id: Id, user: Id, session: Id, purpose: Purpose, contact: string, digest: Digest, w: World)
    requires OneLive(db.proofs)
    ensures OneLive(Create(db, id, user, session, purpose, contact, digest, w).0.proofs)
  {
    var kept := if purpose.Invite? then db.proofs else Superseded(db.proofs, user, purpose);
    var sid := if session == 0 then None else Some(session);
    if Create(db, id, user, session, purpose, contact, digest, w).1 {
      AddingKeepsOneLive(db.proofs, kept, id,
          Proof(user, sid, purpose, contact, digest, w.now + Lifetime(purpose), false, false, 0, w.now));
    }
  }

  lemma CreateKeepsCounters(
        db: Db, id: Id, user: Id, session: Id, purpose: Purpose, contact: string, digest: Digest, w: World)
    requires CountersOk(db.proofs)
    ensures CountersOk(Create(db, id, user, session, purpose, contact, digest, w).0.proofs)
  {
  }

  lemma ConfirmingKeepsContactsExclusive(db: Db, user: Id, contact: string)
    requires ContactsExclusive(db.contacts) && !TakenByOther(db, user, contact)
    ensures ContactsExclusive(db.contacts[(user, contact) := true])
  {
    var after := db.contacts[(user, contact) := true];
    forall k, l | k in after && l in after && after[k] && after[l] && k.1 == l.1 ensures k == l {
      assert k != (user, contact) ==> k in db.contacts && db.contacts[k];
      assert l != (user, contact) ==> l in db.contacts && db.contacts[l];
    }
  }

  lemma ConsumeOutcome(db: Db, id: Id, use: Use, c: Caller, g: Guess, w: World)
    ensures var (s, result) := Consume(db, id, use, c, g, w);
            && s.invitations == db.invitations
            && (result.Refused? || result.Aborted? ==> s == db)
            && (result.WrongGuess? ==> id in db.proofs && Usable(db.proofs[id], PurposeOf(use), w.now)
                                       && s == db.(proofs := db.proofs[id := Miss(db.proofs[id])]))
            && (result.Accepted? ==>
                  && id in db.proofs && Live(db.proofs[id]) && Effect(db, id, use).Some?
                  && var done := Effect(db, id, use).value;
                  && id in done.proofs && s == done.(proofs := done.proofs[id := done.proofs[id].(consumed := true)]))
  {
  }

  lemma EffectSteps(db: Db, id: Id, use: Use)
    requires id in db.proofs && Effect(db, id, use).Some?
    ensures var done := Effect(db, id, use).value;
            ProofsStep(db.proofs, done.proofs) && done.proofs.Keys == db.proofs.Keys && done.proofs[id] == db.proofs[id]
  {
  }

  lemma ConsumeKeepsContactsExclusive(db: Db, id: Id, use: Use, c: Caller, g: Guess, w: World)
    requires ContactsExclusive(db.contacts)
    ensures ContactsExclusive(Consume(db, id, use, c, g, w).0.contacts)
  {
    ConsumeOutcome(db, id, use, c, g, w);
    if Consume(db, id, use, c, g, w).1.Accepted? && use.Confirm? {
      ConfirmingKeepsContactsExclusive(db, db.proofs[id].user, db.proofs[id].contact);
    }
  }

  lemma ConsumeSteps(db: Db, id: Id, use: Use, c: Caller, g: Guess, w: World)
    ensures var (s, result) := Consume(db, id, use, c, g, w);
            && ProofsStep(db.proofs, s.proofs) && s.proofs.Keys == db.proofs.Keys && s.invitations == db.invitations
            && (result.Accepted? ==> id in db.proofs && Live(db.proofs[id]) && s.proofs[id].consumed)
            && (result.WrongGuess? ==> id in db.proofs && s.proofs[id].attempts == db.proofs[id].attempts + 1)
  {
    ConsumeOutcome(db, id, use, c, g, w);
    if Consume(db, id, use, c, g, w).1.Accepted? { EffectSteps(db, id, use); }
  }

  lemma AcceptOutcome(db: Db, id: Id, c: Caller, g: Guess, w: World)
    ensures var (s, result) := Accept(db, id, c, g, w);
            && (result.Refused? || result.Aborted? ==> s == db)
            && (result.WrongGuess? ==> id in db.proofs && Usable(db.proofs[id], Invite, w.now)
                                       && s == db.(proofs := db.proofs[id := Miss(db.proofs[id])]))
            && (result.Accepted? ==>
                  && id in db.proofs && Usable(db.proofs[id], Invite, w.now) && id in db.invitations
                  && s.proofs == db.proofs[id := db.proofs[id].(consumed := true)] && s.contacts == db.contacts
                  && s.invitations
                     == db.invitations[id := db.invitations[id].(acceptedBy := Some(c.subject))])
  {
  }

  lemma AcceptSteps(db: Db, id: Id, c: Caller, g: Guess, w: World)
    ensures var (s, result) := Accept(db, id, c, g, w);
            && ProofsStep(db.proofs, s.proofs) && s.proofs.Keys == db.proofs.Keys && s.contacts == db.contacts
            && s.invitations.Keys == db.invitations.Keys
            && (result.Accepted? ==> id in db.proofs && Live(db.proofs[id]) && s.proofs[id].consumed)
            && (result.WrongGuess? ==> id in db.proofs && s.proofs[id].attempts == db.proofs[id].attempts + 1)
            && (InvitationsOk(db) ==> InvitationsOk(s))
  {
    AcceptOutcome(db, id, c, g, w);
  }

  lemma RevocationSteps(db: Db, id: Id, org: Id, w: World)
    ensures var s := RevokeInvitation(db, id, org, w);
            && ProofsStep(db.proofs, s.proofs) && s.proofs.Keys == db.proofs.Keys && s.contacts == db.contacts
            && s.invitations.Keys == db.invitations.Keys
            && forall i :: i in s.invitations ==> s.invitations[i].acceptedBy == db.invitations[i].acceptedBy
  {}

  lemma ProofsSteps(db: Db, e: Event)
    ensures ProofsStep(db.proofs, Step(db, e).proofs)
    ensures !e.CreateEvent? && !e.InviteEvent? ==> Step(db, e).proofs.Keys == db.proofs.Keys
  {
    if e.CreateEvent? {
      CreateSteps(db, e.id, e.user, e.session, e.purpose, e.contact, e.digest, e.w);
    } else if e.InviteEvent? {
      CreateSteps(db, e.id, e.user, e.session, Invite, e.contact, e.digest, e.w);
    } else if e.ConsumeEvent? {
      ConsumeSteps(db, e.id, e.use, e.caller, e.guess, e.w);
    } else if e.AcceptEvent? {
      AcceptSteps(db, e.id, e.caller, e.guess, e.w);
    } else if e.RevokeEvent? {
      RevocationSteps(db, e.id, e.org, e.w);
    }
  }

  lemma ProofSteps(db: Db, e: Event, id: Id)
    requires id in db.proofs
    ensures id in Step(db, e).proofs && ProofStep(db.proofs[id], Step(db, e).proofs[id])
    ensures Misses(db, e, id) && Commits(e) ==> Step(db, e).proofs[id].attempts == db.proofs[id].attempts + 1
    ensures Applies(db, e, id) ==> Step(db, e).proofs[id].consumed
    ensures !Live(db.proofs[id]) ==> !Misses(db, e, id) && !Applies(db, e, id)
    ensures !(Misses(db, e, id) && Applies(db, e, id))
  {
    ProofsSteps(db, e);
    match e
    case ConsumeEvent(i, use, caller, guess, w) => ConsumeSteps(db, i, use, caller, guess, w);
    case AcceptEvent(i, caller, guess, w) => AcceptSteps(db, i, caller, guess, w);
    case _ =>
  }

  lemma OneLiveIsKept(before: map<Id, Proof>, after: map<Id, Proof>)
    requires OneLive(before) && ProofsStep(before, after) && after.Keys == before.Keys
    ensures OneLive(after) && (CountersOk(before) ==> CountersOk(after))
  {
    forall a, b | a in after && b in after && Live(after[a]) && Live(after[b])
                  && after[a].user == after[b].user && after[a].purpose == after[b].purpose && !after[a].purpose.Invite?
      ensures a == b
    {
      assert ProofStep(before[a], after[a]) && ProofStep(before[b], after[b]);
    }
    forall id | CountersOk(before) && id in after ensures after[id].attempts <= MAX_ATTEMPTS {
      assert ProofStep(before[id], after[id]);
    }
  }

  lemma InvitationsAreKept(db: Db, s: Db)
    requires InvitationsOk(db) && ProofsStep(db.proofs, s.proofs)
    requires forall id :: id in s.invitations ==>
               id in db.invitations && s.invitations[id].acceptedBy == db.invitations[id].acceptedBy
    ensures InvitationsOk(s)
  {
    forall id | id in s.invitations
      ensures id in s.proofs && s.proofs[id].purpose.Invite?
      ensures (s.invitations[id].acceptedBy.Some? ==> s.proofs[id].consumed)
    {
      assert ProofStep(db.proofs[id], s.proofs[id]);
    }
  }

  lemma CreateKeepsOk(
        db: Db, id: Id, user: Id, session: Id, purpose: Purpose, contact: string, digest: Digest, w: World)
    requires Ok(db)
    ensures Ok(Create(db, id, user, session, purpose, contact, digest, w).0)
  {
    CreateSteps(db, id, user, session, purpose, contact, digest, w);
    CreateKeepsOneLive(db, id, user, session, purpose, contact, digest, w);
    CreateKeepsCounters(db, id, user, session, purpose, contact, digest, w);
    InvitationsAreKept(db, Create(db, id, user, session, purpose, contact, digest, w).0);
  }

  lemma NewInvitationKeepsOk(db: Db, id: Id, i: Invitation)
    requires Ok(db) && id in db.proofs && db.proofs[id].purpose.Invite? && i.acceptedBy.None?
    ensures Ok(db.(invitations := db.invitations[id := i]))
  {}

  lemma CreationKeepsOk(db: Db, e: Event)
    requires Ok(db) && (e.CreateEvent? || e.InviteEvent?)
    ensures Ok(Step(db, e))
  {
    if e.InviteEvent? {
      var (s, ok) := Create(db, e.id, e.user, e.session, Invite, e.contact, e.digest, e.w);
      CreateKeepsOk(db, e.id, e.user, e.session, Invite, e.contact, e.digest, e.w);
      CreateSteps(db, e.id, e.user, e.session, Invite, e.contact, e.digest, e.w);
      if ok { NewInvitationKeepsOk(s, e.id, e.invitation.(inviter := e.user, acceptedBy := None, revoked := false)); }
    } else if !e.purpose.Invite? {
      CreateKeepsOk(db, e.id, e.user, e.session, e.purpose, e.contact, e.digest, e.w);
    }
  }

  lemma UseKeepsOk(db: Db, e: Event)
    requires Ok(db) && (e.ConsumeEvent? || e.AcceptEvent?)
    ensures Ok(Step(db, e))
  {
    var s := Step(db, e);
    ProofsSteps(db, e);
    OneLiveIsKept(db.proofs, s.proofs);
    if e.ConsumeEvent? {
      ConsumeSteps(db, e.id, e.use, e.caller, e.guess, e.w);
      ConsumeKeepsContactsExclusive(db, e.id, e.use, e.caller, e.guess, e.w);
      InvitationsAreKept(db, s);
    } else {
      AcceptSteps(db, e.id, e.caller, e.guess, e.w);
    }
  }

  // At most one live proof per user and purpose, contacts owned by one user, counters
  // within five, and every accepted invitation spent its proof.
  lemma StepKeepsOk(db: Db, e: Event)
    requires Ok(db)
    ensures Ok(Step(db, e))
  {
    if e.CreateEvent? || e.InviteEvent? {
      CreationKeepsOk(db, e);
    } else if e.ConsumeEvent? || e.AcceptEvent? {
      UseKeepsOk(db, e);
    } else if e.RevokeEvent? {
      RevocationKeepsOk(db, e.id, e.org, e.w);
    }
  }

  lemma RevocationKeepsOk(db: Db, id: Id, org: Id, w: World)
    requires Ok(db)
    ensures Ok(RevokeInvitation(db, id, org, w))
  {
    var s := RevokeInvitation(db, id, org, w);
    RevocationSteps(db, id, org, w);
    OneLiveIsKept(db.proofs, s.proofs);
    InvitationsAreKept(db, s);
  }

  lemma {:induction false} RunKeepsOk(db: Db, es: seq<Event>)
    requires Ok(db)
    ensures Ok(Run(db, es))
    decreases es
  {
    if es != [] {
      StepKeepsOk(db, es[0]);
      RunKeepsOk(Step(db, es[0]), es[1..]);
    }
  }

  // Through both consumers together, a proof's hash meets at most five wrong guesses
  // whose transactions commit; once spent or revoked it meets none and is never applied.
  lemma {:induction false} GuessesAreBounded(db: Db, es: seq<Event>, id: Id)
    requires Ok(db) && id in db.proofs
    ensures MissCount(db, es, id) - AbortedMissCount(db, es, id) <= MAX_ATTEMPTS - db.proofs[id].attempts
    ensures !Live(db.proofs[id]) ==> MissCount(db, es, id) == 0 && ApplyCount(db, es, id) == 0
    ensures ApplyCount(db, es, id) <= 1
    ensures ApplyCount(db, es, id) == 1 ==> id in Run(db, es).proofs && Run(db, es).proofs[id].consumed
    decreases es
  {
    if es != [] {
      ProofSteps(db, es[0], id);
      StepKeepsOk(db, es[0]);
      var next := Step(db, es[0]);
      GuessesAreBounded(next, es[1..], id);
      if Applies(db, es[0], id) { ConsumedStays(next, es[1..], id); }
    }
  }

  lemma {:induction false} ConsumedStays(db: Db, es: seq<Event>, id: Id)
    requires Ok(db) && id in db.proofs && db.proofs[id].consumed
    ensures id in Run(db, es).proofs && Run(db, es).proofs[id].consumed
    decreases es
  {
    if es != [] {
      ProofSteps(db, es[0], id);
      StepKeepsOk(db, es[0]);
      ConsumedStays(Step(db, es[0]), es[1..], id);
    }
  }

  // The transaction ends in a failed append, so nothing of it is kept.
  predicate Fails(e: Event) { (e.ConsumeEvent? || e.AcceptEvent?) && !e.w.auditOk }

  function Repeat(e: Event, n: nat): seq<Event> { if n == 0 then [] else [e] + Repeat(e, n - 1) }

  // The run with every failing transaction tried n more times.
  function Retry(es: seq<Event>, n: nat): seq<Event> {
    if es == [] then [] else (if Fails(es[0]) then Repeat(es[0], n + 1) else [es[0]]) + Retry(es[1..], n)
  }

  // No wrong guess of the run is compared in a transaction that fails.
  predicate EveryMissCommits(db: Db, es: seq<Event>, id: Id)
    decreases es
  {
    es == [] || ((Misses(db, es[0], id) ==> Commits(es[0])) && EveryMissCommits(Step(db, es[0]), es[1..], id))
  }

  lemma {:induction false} EveryMissCommitsMeansNoneAborts(db: Db, es: seq<Event>, id: Id)
    ensures EveryMissCommits(db, es, id) <==> AbortedMissCount(db, es, id) == 0
    decreases es
  {
    if es != [] { EveryMissCommitsMeansNoneAborts(Step(db, es[0]), es[1..], id); }
  }

  lemma FailureLeavesNoTrace(db: Db, e: Event)
    requires Fails(e)
    ensures Step(db, e) == db
  {}

  // Through either consumer, a wrong guess whose append fails is compared and rolled
  // back, so n of them get through with no trace.
  lemma {:induction false} AbortedGuessesAreNotCounted(db: Db, e: Event, id: Id, n: nat)
    requires Fails(e)
    ensures MissCount(db, Repeat(e, n), id) == (if Misses(db, e, id) then n else 0) && Run(db, Repeat(e, n)) == db
    decreases n
  {
    if n > 0 {
      FailureLeavesNoTrace(db, e);
      assert Repeat(e, n)[1..] == Repeat(e, n - 1);
      AbortedGuessesAreNotCounted(db, e, id, n - 1);
    }
  }

  // A database with one live proof of user 7, under session 9, and its invitation if it is one.
  function Single(purpose: Purpose): Db {
    Db(map[1 := Proof(7, Some(9), purpose, "a@b.c", 42, 1000, false, false, 0, 0)],
       map[(7, "a@b.c") := true], map[9 := Session(7, false)], map[7 := "old"],
       if purpose.Invite? then map[1 := Invitation(3, 7, Some(8), "editor", None, false)] else map[],
       map[(3, 7) := "admin"], map[3 := 7])
  }

  lemma SingleIsOk(purpose: Purpose)
    ensures Ok(Single(purpose))
  {
    assert ContactsExclusive(Single(purpose).contacts);
  }

  // Six wrong guesses at one proof, each in a transaction whose append fails: all six are
  // compared, one more than the bound. So it is through a confirmation or a reset ...
  lemma FailingConsumeGuessesOn(use: Use)
    ensures var (db, e) := (Single(PurposeOf(use)),
                            ConsumeEvent(1, use, Caller(7, 9), Guess(RAW_LENGTH, 41), World(true, false, 5)));
            && Ok(db) && Fails(e) && Misses(db, e, 1) && !EveryMissCommits(db, [e], 1)
            && MissCount(db, Repeat(e, 6), 1) == 6 > MAX_ATTEMPTS
  {
    var e := ConsumeEvent(1, use, Caller(7, 9), Guess(RAW_LENGTH, 41), World(true, false, 5));
    SingleIsOk(PurposeOf(use));
    AbortedGuessesAreNotCounted(Single(PurposeOf(use)), e, 1, 6);
  }

  // ... and through the acceptance of an invitation.
  lemma FailingAcceptGuessesOn()
    ensures var (db, e) := (Single(Invite),
                            AcceptEvent(1, Caller(8, 10), Guess(RAW_LENGTH, 41), World(true, false, 5)));
            && Ok(db) && Fails(e) && Misses(db, e, 1) && !EveryMissCommits(db, [e], 1)
            && MissCount(db, Repeat(e, 6), 1) == 6 > MAX_ATTEMPTS
  {
    var e := AcceptEvent(1, Caller(8, 10), Guess(RAW_LENGTH, 41), World(true, false, 5));
    SingleIsOk(Invite);
    AbortedGuessesAreNotCounted(Single(Invite), e, 1, 6);
  }

  lemma {:induction false} MissCountSplits(db: Db, a: seq<Event>, b: seq<Event>, id: Id)
    ensures MissCount(db, a + b, id) == MissCount(db, a, id) + MissCount(Run(db, a), b, id)
    decreases a
  {
    if a == [] {
      assert a + b == b;
    } else {
      assert (a + b)[1..] == a[1..] + b;
      MissCountSplits(Step(db, a[0]), a[1..], b, id);
    }
  }

  lemma {:induction false} RetriesCount(db: Db, es: seq<Event>, id: Id, n: nat)
    ensures MissCount(db, Retry(es, n), id) == MissCount(db, es, id) + n * AbortedMissCount(db, es, id)
    decreases es
  {
    if es != [] {
      var (e, rest) := (es[0], es[1..]);
      var first := if Fails(e) then Repeat(e, n + 1) else [e];
      RetriesCount(Step(db, e), rest, id, n);
      MissCountSplits(db, first, Retry(rest, n), id);
      if Fails(e) {
        FailureLeavesNoTrace(db, e);
        AbortedGuessesAreNotCounted(db, e, id, n + 1);
      } else {
        assert Misses(db, e, id) ==> Commits(e);
        OneEvent(db, e, id);
      }
      ProductStep(n, AbortedMissCount(Step(db, e), rest, id));
    }
  }

  lemma OneEvent(db: Db, e: Event, id: Id)
    ensures MissCount(db, [e], id) == (if Misses(db, e, id) then 1 else 0) && Run(db, [e]) == Step(db, e)
  {
    assert [e][1..] == [];
  }

  lemma ProductStep(n: nat, k: nat)
    ensures n * (1 + k) == n + n * k
  {}

  // A run keeps to the guesses left, however often its failing transactions are tried
  // again, exactly when every wrong guess in it is compared in a transaction that commits.
  lemma BoundHoldsIffMissesCommit(db: Db, es: seq<Event>, id: Id)
    requires Ok(db) && id in db.proofs
    ensures (forall n: nat :: MissCount(db, Retry(es, n), id) <= MAX_ATTEMPTS - db.proofs[id].attempts)
            <==> EveryMissCommits(db, es, id)
    ensures EveryMissCommits(db, es, id) ==> MissCount(db, es, id) <= MAX_ATTEMPTS - db.proofs[id].attempts
  {
    GuessesAreBounded(db, es, id);
    EveryMissCommitsMeansNoneAborts(db, es, id);
    forall n: nat ensures MissCount(db, Retry(es, n), id) == MissCount(db, es, id) + n * AbortedMissCount(db, es, id) {
      RetriesCount(db, es, id, n);
    }
    if !EveryMissCommits(db, es, id) {
      var n: nat := MAX_ATTEMPTS + 1;
      var k := AbortedMissCount(db, es, id);
      assert n * k >= n;
      assert MissCount(db, Retry(es, n), id) > MAX_ATTEMPTS - db.proofs[id].attempts;
    }
  }

  // A completed reset ends every earlier authority of that user and of nobody else.
  lemma ResetEndsEarlierAuthority(db: Db, id: Id, password: string, c: Caller, g: Guess, w: World)
    requires Ok(db) && Consume(db, id, Reset(password), c, g, w).1.Accepted?
    ensures var s := Consume(db, id, Reset(password), c, g, w).0;
            var user := db.proofs[id].user;
            && s.passwords == db.passwords[user := password]
            && (forall p :: p in s.proofs && s.proofs[p].user == user ==> !Live(s.proofs[p]))
            && (forall t :: t in s.sessions && s.sessions[t].user == user ==> s.sessions[t].revoked)
            && (forall p :: p in db.proofs && db.proofs[p].user != user ==>
                p in s.proofs && s.proofs[p] == db.proofs[p])
            && (forall t :: t in db.sessions && db.sessions[t].user != user ==>
                t in s.sessions && s.sessions[t] == db.sessions[t])
            && ActiveContact(db, user, db.proofs[id].contact)
  {
  }

  // Membership comes only from an unspent invitation addressed to the caller, and an
  // existing membership is never changed.
  lemma AcceptanceJoinsOnlyTheAddressee(db: Db, id: Id, c: Caller, g: Guess, w: World)
    requires Ok(db) && Accept(db, id, c, g, w).1.Accepted?
    ensures var s := Accept(db, id, c, g, w).0;
            && id in db.invitations && id in db.proofs && g.digest == db.proofs[id].hash
            && var inv := db.invitations[id];
            && !db.proofs[id].consumed && s.proofs[id].consumed
            && (forall k :: k in db.members ==> k in s.members && s.members[k] == db.members[k])
            && s.members.Keys - db.members.Keys == {(inv.org, c.subject)}
            && (inv.target == Some(c.subject)
                || (inv.target.None? && ActiveContact(db, c.subject, db.proofs[id].contact)))
            && !Accept(s, id, c, g, w).1.Accepted?
  {
  }

  // ---------------------------------------------------------------- the hourly budget

  ghost function CreatedWithin(db: Db, user: Id, purpose: Purpose, until: int): set<Id> {
    set id | id in db.proofs && db.proofs[id].user == user && db.proofs[id].purpose == purpose
             && until - 3600 * SECOND < db.proofs[id].createdAt <= until
  }

  ghost predicate WithinBudget(db: Db, user: Id, purpose: Purpose, until: int) {
    |CreatedWithin(db, user, purpose, until)| <= PROOF_BUDGET
  }

  // Steps other than creation put no proof in the hour.
  lemma NoneAppears(before: Db, after: Db, user: Id, purpose: Purpose, until: int)
    requires ProofsStep(before.proofs, after.proofs) && after.proofs.Keys == before.proofs.Keys
    ensures CreatedWithin(after, user, purpose, until) <= CreatedWithin(before, user, purpose, until)
  {
    forall id | id in CreatedWithin(after, user, purpose, until)
        ensures id in CreatedWithin(before, user, purpose, until) {
      assert ProofStep(before.proofs[id], after.proofs[id]);
    }
  }

  lemma OneAppears(before: Db, after: Db, id: Id, user: Id, purpose: Purpose, until: int)
    requires ProofsStep(before.proofs, after.proofs) && after.proofs.Keys == before.proofs.Keys + {id}
    ensures CreatedWithin(after, user, purpose, until) <= CreatedWithin(before, user, purpose, until) + {id}
  {
    forall x | x in CreatedWithin(after, user, purpose, until) && x != id
        ensures x in CreatedWithin(before, user, purpose, until) {
      assert ProofStep(before.proofs[x], after.proofs[x]);
    }
  }

  lemma CreationKeepsBudget(db: Db, id: Id, u: Id, session: Id, p: Purpose, contact: string, digest: Digest, w: World,
                            user: Id, purpose: Purpose, until: int)
    requires WithinBudget(db, user, purpose, until)
    ensures WithinBudget(Create(db, id, u, session, p, contact, digest, w).0, user, purpose, until)
  {
    var (s, ok) := Create(db, id, u, session, p, contact, digest, w);
    var (before, after) := (CreatedWithin(db, user, purpose, until), CreatedWithin(s, user, purpose, until));
    CreateSteps(db, id, u, session, p, contact, digest, w);
    if ok {
      OneAppears(db, s, id, user, purpose, until);
      if id in after {
        Shrink(before, Recent(db, user, purpose, w.now));
        Shrink(after, before + {id});
      } else {
        Shrink(after, before);
      }
    }
  }

  // No step takes an hour over its five proofs of a user and purpose, in whatever order
  // the transactions see their times.
  lemma StepKeepsBudget(db: Db, e: Event, user: Id, purpose: Purpose, until: int)
    requires WithinBudget(db, user, purpose, until)
    ensures WithinBudget(Step(db, e), user, purpose, until)
  {
    if e.CreateEvent? {
      CreationKeepsBudget(db, e.id, e.user, e.session, e.purpose, e.contact, e.digest, e.w, user, purpose, until);
    } else if e.InviteEvent? {
      CreationKeepsBudget(db, e.id, e.user, e.session, Invite, e.contact, e.digest, e.w, user, purpose, until);
      var (s, n) := (Create(db, e.id, e.user, e.session, Invite, e.contact, e.digest, e.w).0, Step(db, e));
      assert n == db || CreatedWithin(n, user, purpose, until) == CreatedWithin(s, user, purpose, until);
    } else {
      ProofsSteps(db, e);
      NoneAppears(db, Step(db, e), user, purpose, until);
      Shrink(CreatedWithin(Step(db, e), user, purpose, until), CreatedWithin(db, user, purpose, until));
    }
  }

  // So in any run no hour sees more than five proofs created for a user and purpose.
  lemma {:induction false} RunKeepsBudget(db: Db, es: seq<Event>, user: Id, purpose: Purpose, until: int)
    requires WithinBudget(db, user, purpose, until)
    ensures WithinBudget(Run(db, es), user, purpose, until)
    decreases es
  {
    if es != [] {
      StepKeepsBudget(db, es[0], user, purpose, until);
      RunKeepsBudget(Step(db, es[0]), es[1..], user, purpose, until);
    }
  }

  lemma {:induction false} Shrink<T>(small: set<T>, big: set<T>)
    requires small <= big
    ensures |small| <= |big|
  {
    assert big == small + (big - small);
  }
}
