/**
 The durable outbox of backend/internal/jobs/queue.go: a table of jobs moved by
 leased and fenced transactions. `NOW()` is a parameter of every operation and no
 lemma assumes that successive values of it increase.
 */
module Outbox {
  import opened Wrappers

  // A UUID; 0 is uuid.Nil.
  type Id = nat

  // Nanoseconds.
  const MILLISECOND := 1_000_000
  const SECOND := 1_000 * MILLISECOND

  datatype Effect = Local | External
  datatype Status = Pending | Leased | Dispatched | Done | Failed | Uncertain
  datatype Outcome = NoOutcome | Completed | AttemptFailed | DispatchUnknown | AttemptsExhausted | ProjectDeleted

  // `delivery` is the delivery reference the payload decodes to, if it does.
  datatype Payload = Payload(size: nat, validJson: bool, delivery: Option<Id>)

  datatype Row = Row(
    kind: string, payload: Payload, effect: Effect, maxAttempts: nat,
    status: Status, outcome: Outcome, worker: Id, fence: nat, attempt: nat,
    leaseUntil: Option<int>, availableAt: int)

  type Table = map<Id, Row>

  // What a claim hands to a worker: the capability to move the job.
  datatype Job = Job(id: Id, worker: Id, fence: nat, payload: Payload, effect: Effect)

  predicate Settled(row: Row) { row.status.Done? || row.status.Failed? || row.status.Uncertain? }

  predicate InFlight(row: Row) { row.status.Leased? || row.status.Dispatched? }

  predicate Expired(row: Row, now: int) { row.leaseUntil.Some? && row.leaseUntil.value <= now }

  predicate LeaseHeld(row: Row, now: int) { row.leaseUntil.Some? && row.leaseUntil.value > now }

  // ---------------------------------------------------------------- the steps

  predicate ValidEnqueue(id: Id, kind: string, payload: Payload, maxAttempts: int) {
    && id != 0 && 0 < |kind| <= 100
    && payload.size <= 65536 && payload.validJson
    && 1 <= maxAttempts <= 20
  }

  function Enqueued(kind: string, payload: Payload, effect: Effect, maxAttempts: nat, now: int): Row {
    Row(kind, payload, effect, maxAttempts, Pending, NoOutcome, 0, 0, 0, None, now)
  }

  function ExpireExternal(row: Row, now: int): Row {
    if row.status.Dispatched? && row.effect.External? && Expired(row, now)
    then row.(status := Uncertain, outcome := DispatchUnknown)
    else row
  }

  function ExpireExhausted(row: Row, now: int): Row {
    if InFlight(row) && Expired(row, now) && row.attempt >= row.maxAttempts
    then row.(status := Failed, outcome := AttemptsExhausted)
    else row
  }

  // The two clean-up updates every claim starts with, in their order.
  function Expire(t: Table, now: int): Table {
    map id | id in t :: ExpireExhausted(ExpireExternal(t[id], now), now)
  }

  predicate Claimable(row: Row, now: int) {
    && row.attempt < row.maxAttempts && row.availableAt <= now
    && (row.status.Pending? ||
        (InFlight(row) && Expired(row, now) && (row.status.Leased? || row.effect.Local?)))
  }

  predicate Wanted(row: Row, kinds: set<string>) { kinds == {} || row.kind in kinds }

  // Rows another transaction holds (`SKIP LOCKED`) are not candidates.
  function Candidates(t: Table, now: int, kinds: set<string>, locked: set<Id>): set<Id> {
    set id | id in t && id !in locked && Claimable(t[id], now) && Wanted(t[id], kinds)
  }

  predicate Before(t: Table, a: Id, b: Id)
    requires a in t && b in t
  {
    t[a].availableAt < t[b].availableAt || (t[a].availableAt == t[b].availableAt && a <= b)
  }

  predicate IsFirst(t: Table, ids: set<Id>, id: Id) {
    id in ids && ids <= t.Keys && forall other :: other in ids ==> Before(t, id, other)
  }

  lemma {:induction false} FirstExists(t: Table, ids: set<Id>)
    requires ids != {} && ids <= t.Keys
    ensures exists id :: IsFirst(t, ids, id)
  {
    var some :| some in ids;
    if ids == {some} {
      assert IsFirst(t, ids, some);
    } else {
      var rest := ids - {some};
      FirstExists(t, rest);
      var best :| IsFirst(t, rest, best);
      var least := if Before(t, some, best) then some else best;
      forall other | other in ids ensures Before(t, least, other) {
        assert other == some || other in rest;
        assert other in rest ==> Before(t, best, other);
      }
      assert IsFirst(t, ids, least);
    }
  }

  ghost function First(t: Table, ids: set<Id>): (id: Id)
    requires ids != {} && ids <= t.Keys
    ensures IsFirst(t, ids, id)
  {
    FirstExists(t, ids);
    var id :| IsFirst(t, ids, id);
    id
  }

  lemma FirstIsUnique(t: Table, ids: set<Id>, id: Id)
    requires IsFirst(t, ids, id)
    ensures First(t, ids) == id
  {
    assert Before(t, id, First(t, ids)) && Before(t, First(t, ids), id);
  }

  predicate ValidLease(worker: Id, lease: int) { worker != 0 && SECOND <= lease <= 300 * SECOND }

  function ClaimedRow(row: Row, worker: Id, lease: int, now: int): Row {
    row.(status := Leased, worker := worker, attempt := row.attempt + 1, fence := row.fence + 1,
         leaseUntil := Some(now + (lease / MILLISECOND) * MILLISECOND))
  }

  // The lease is cut down to whole milliseconds.
  ghost function Claim(t: Table, worker: Id, lease: int, kinds: set<string>, locked: set<Id>, now: int)
    : (r: (Table, Option<Job>))
  {
    if !ValidLease(worker, lease) then (t, None)
    else
      var e := Expire(t, now);
      var ids := Candidates(e, now, kinds, locked);
      if ids == {} then (e, None)
      else
        var id := First(e, ids);
        var row := ClaimedRow(e[id], worker, lease, now);
        (e[id := row], Some(Job(id, worker, row.fence, row.payload, row.effect)))
  }

  datatype Move = Dispatch | Ack | Fail(uncertain: bool)

  predicate Allowed(m: Move, s: Status) { s.Leased? || (!m.Dispatch? && s.Dispatched?) }

  function Moved(m: Move, row: Row, now: int): Row {
    match m
    case Dispatch => row.(status := Dispatched)
    case Ack => row.(status := Done, outcome := Completed)
    case Fail(uncertain) =>
      var unknown := uncertain || (row.status.Dispatched? && row.effect.External?);
      var backoff := if row.attempt * row.attempt < 300 then row.attempt * row.attempt else 300;
      row.(status := if unknown then Uncertain else if row.attempt >= row.maxAttempts then Failed else Pending,
           outcome := if unknown then DispatchUnknown else AttemptFailed,
           availableAt := now + backoff * SECOND)
  }

  // The guard of every transition: identity, fence, live lease, allowed status.
  predicate Owns(t: Table, j: Job, m: Move, now: int) {
    && j.id != 0 && j.worker != 0 && j.id in t
    && t[j.id].worker == j.worker && t[j.id].fence == j.fence
    && LeaseHeld(t[j.id], now) && Allowed(m, t[j.id].status)
  }

  function Transition(t: Table, j: Job, m: Move, now: int): Table {
    if Owns(t, j, m, now) then t[j.id := Moved(m, t[j.id], now)] else t
  }

  // ---------------------------------------------------------------- the class

  datatype Answer = Ok | Fenced | Invalid

  class Queue {
    var table: Table

    constructor ()
      ensures table == map[]
    {
      table := map[];
    }

    method EnqueueTx(id: Id, kind: string, payload: Payload, effect: Effect, maxAttempts: int, now: int)
      returns (ok: bool)
      modifies this
      ensures ok == (ValidEnqueue(id, kind, payload, maxAttempts) && id !in old(table))
      ensures table == if ok then old(table)[id := Enqueued(kind, payload, effect, maxAttempts, now)] else old(table)
    {
      if !ValidEnqueue(id, kind, payload, maxAttempts) || id in table {
        return false;
      }
      table := table[id := Row(kind, payload, effect, maxAttempts, Pending, NoOutcome, 0, 0, 0, None, now)];
      return true;
    }

    method ClaimKinds(worker: Id, lease: int, kinds: set<string>, locked: set<Id>, now: int)
      returns (job: Option<Job>, valid: bool)
      modifies this
      ensures valid == ValidLease(worker, lease)
      ensures (table, job) == Claim(old(table), worker, lease, kinds, locked, now)
    {
      if worker == 0 || lease < SECOND || lease > 300 * SECOND {
        return None, false;
      }
      table := map id | id in table :: ExpireExternal(table[id], now);
      table := map id | id in table :: ExpireExhausted(table[id], now);
      assert table == Expire(old(table), now);
      var candidates := set id | id in table && id !in locked && Claimable(table[id], now) && Wanted(table[id], kinds);
      assert candidates == Candidates(table, now, kinds, locked);
      if candidates == {} {
        return None, true;
      }
      FirstExists(table, candidates);
      var id :| id in candidates && forall other :: other in candidates ==> Before(table, id, other);
      FirstIsUnique(table, candidates, id);
      var row := ClaimedRow(table[id], worker, lease, now);
      table := table[id := row];
      return Some(Job(id, worker, row.fence, row.payload, row.effect)), true;
    }

    method Apply(j: Job, m: Move, now: int) returns (answer: Answer)
      modifies this
      ensures answer == if Owns(old(table), j, m, now) then Ok else Fenced
      ensures table == Transition(old(table), j, m, now)
    {
      if j.id == 0 || j.worker == 0 {
        return Fenced;
      }
      if j.id in table {
        var row := table[j.id];
        if row.worker == j.worker && row.fence == j.fence && LeaseHeld(row, now) && Allowed(m, row.status) {
          table := table[j.id := Moved(m, row, now)];
          return Ok;
        }
      }
      return Fenced;
    }
  }

  // ---------------------------------------------------------------- the runs

  // `Abandon` is the project-deletion update of backend/internal/vault/project.go.
  datatype Event =
    | EnqueueEvent(id: Id, kind: string, payload: Payload, effect: Effect, maxAttempts: nat, now: int)
    | ClaimEvent(worker: Id, lease: int, kinds: set<string>, locked: set<Id>, now: int)
    | MoveEvent(job: Job, move: Move, now: int)
    | Abandon(doomed: set<Id>)

  ghost function Step(t: Table, e: Event): Table {
    match e
    case EnqueueEvent(id, kind, payload, effect, maxAttempts, now) =>
      if ValidEnqueue(id, kind, payload, maxAttempts) && id !in t
      then t[id := Enqueued(kind, payload, effect, maxAttempts, now)] else t
    case ClaimEvent(worker, lease, kinds, locked, now) => Claim(t, worker, lease, kinds, locked, now).0
    case MoveEvent(j, m, now) => Transition(t, j, m, now)
    case Abandon(doomed) =>
      map id | id in t ::
        if id in doomed && (t[id].status.Pending? || t[id].status.Leased?)
        then t[id].(status := Failed, outcome := ProjectDeleted) else t[id]
  }

  ghost function Run(t: Table, es: seq<Event>): Table
    decreases es
  {
    if es == [] then t else Run(Step(t, es[0]), es[1..])
  }

  // ---------------------------------------------------------------- the operations in terms of columns

  // A valid new job is stored pending with no attempt spent; anything else changes nothing.
  lemma EnqueueInColumns(
      t: Table, id: Id, kind: string, payload: Payload, effect: Effect, maxAttempts: nat, now: int)
    ensures Step(t, EnqueueEvent(id, kind, payload, effect, maxAttempts, now))
         == if && id != 0 && id !in t && 1 <= |kind| <= 100 && payload.size <= 65536 && payload.validJson
               && 1 <= maxAttempts <= 20
            then t[id := Row(kind, payload, effect, maxAttempts, Pending, NoOutcome, 0, 0, 0, None, now)] else t
  {}

  // Nothing is claimed exactly when no unlocked job of the wanted kinds is due with an
  // attempt left and either pending or given up by its worker before an outside effect.
  lemma ClaimTakesAReadyJob(t: Table, worker: Id, lease: int, kinds: set<string>, locked: set<Id>, now: int)
    requires worker != 0 && SECOND <= lease <= 300 * SECOND
    ensures var job := Claim(t, worker, lease, kinds, locked, now).1;
            job.None? <==>
            forall id :: id in t && id !in locked && (kinds == {} || t[id].kind in kinds) ==>
              !(&& t[id].attempt < t[id].maxAttempts && t[id].availableAt <= now
                && (|| t[id].status.Pending?
                    || (&& t[id].leaseUntil.Some? && t[id].leaseUntil.value <= now
                        && (t[id].status.Leased? || (t[id].status.Dispatched? && t[id].effect.Local?)))))
  {
    var e := Expire(t, now);
    var ids := Candidates(e, now, kinds, locked);
    forall id | id in t && id !in locked && (kinds == {} || t[id].kind in kinds) ensures Claimable(e[id], now) <==>
      (&& t[id].attempt < t[id].maxAttempts && t[id].availableAt <= now
       && (|| t[id].status.Pending?
           || (&& t[id].leaseUntil.Some? && t[id].leaseUntil.value <= now
               && (t[id].status.Leased? || (t[id].status.Dispatched? && t[id].effect.Local?)))))
    {
      ClaimableInColumns(t[id], now);
    }
    forall id | id in t && id !in locked && (kinds == {} || t[id].kind in kinds)
      ensures Claimable(e[id], now) <==> id in ids
    {}
    if ids != {} {
      var id :| id in ids;
      assert Claimable(e[id], now);
    }
  }

  // The clean-up neither readies a job nor holds one back.
  lemma ClaimableInColumns(row: Row, now: int)
    ensures Claimable(ExpireExhausted(ExpireExternal(row, now), now), now) <==>
            && row.attempt < row.maxAttempts && row.availableAt <= now
            && (|| row.status.Pending?
                || (&& row.leaseUntil.Some? && row.leaseUntil.value <= now
                    && (row.status.Leased? || (row.status.Dispatched? && row.effect.Local?))))
  {}

  lemma ClaimRefusesBadLeases(t: Table, worker: Id, lease: int, kinds: set<string>, locked: set<Id>, now: int)
    ensures ValidLease(worker, lease) <==> worker != 0 && 1_000_000_000 <= lease <= 300_000_000_000
    ensures !ValidLease(worker, lease) ==> Claim(t, worker, lease, kinds, locked, now) == (t, None)
  {}

  // What a claim writes: the lease in whole milliseconds on the job it returns, and on
  // every other row at most the end of an expired lease.
  lemma ClaimInColumns(t: Table, worker: Id, lease: int, kinds: set<string>, locked: set<Id>, now: int)
    requires worker != 0 && SECOND <= lease <= 300 * SECOND
    ensures var (u, job) := Claim(t, worker, lease, kinds, locked, now);
            && u.Keys == t.Keys
            && (job.Some? ==>
                  var id := job.value.id;
                  && id in t && job.value == Job(id, worker, t[id].fence + 1, t[id].payload, t[id].effect)
                  && u[id] == t[id].(status := Leased, worker := worker, attempt := t[id].attempt + 1,
                                     fence := t[id].fence + 1,
                                     leaseUntil := Some(now + lease / 1_000_000 * 1_000_000)))
            && (forall id :: id in t && (job.Some? ==> id != job.value.id) ==>
                  u[id] == if t[id].leaseUntil.None? || t[id].leaseUntil.value > now then t[id]
                           else if t[id].status.Dispatched? && t[id].effect.External?
                           then t[id].(status := Uncertain, outcome := DispatchUnknown)
                           else if t[id].status in {Leased, Dispatched} && t[id].attempt >= t[id].maxAttempts
                           then t[id].(status := Failed, outcome := AttemptsExhausted)
                           else t[id])
  {
    var (u, job) := Claim(t, worker, lease, kinds, locked, now);
    if job.Some? { assert Claimable(Expire(t, now)[job.value.id], now); }
  }

  // A move succeeds exactly for the holder of the worker, fence and lease in an open
  // status, and these are the columns it writes.
  lemma MoveInColumns(t: Table, j: Job, m: Move, now: int)
    ensures Owns(t, j, m, now) <==>
            && j.id != 0 && j.worker != 0 && j.id in t && t[j.id].worker == j.worker && t[j.id].fence == j.fence
            && t[j.id].leaseUntil.Some? && now < t[j.id].leaseUntil.value
            && (t[j.id].status.Leased? || (t[j.id].status.Dispatched? && m != Dispatch))
    ensures var u := Transition(t, j, m, now);
            if !Owns(t, j, m, now) then u == t
            else
              && u == t[j.id := u[j.id]]
              && var (a, b) := (t[j.id], u[j.id]);
              match m
              case Dispatch => b == a.(status := Dispatched)
              case Ack => b == a.(status := Done, outcome := Completed)
              case Fail(uncertain) =>
                && b == a.(status := b.status, outcome := b.outcome, availableAt := b.availableAt)
                && b.availableAt == now + (if a.attempt * a.attempt <= 300 then a.attempt * a.attempt else 300) * SECOND
                && (if uncertain || (a.status.Dispatched? && a.effect.External?)
                    then b.status.Uncertain? && b.outcome.DispatchUnknown?
                    else b.outcome.AttemptFailed?
                         && b.status == if a.attempt >= a.maxAttempts then Failed else Pending)
  {}

  // Deleting a project fails its jobs that have not been dispatched.
  lemma AbandonInColumns(t: Table, doomed: set<Id>, id: Id)
    requires id in t
    ensures id in Step(t, Abandon(doomed))
    ensures Step(t, Abandon(doomed))[id]
         == if id in doomed && t[id].status in {Pending, Leased}
            then t[id].(status := Failed, outcome := ProjectDeleted) else t[id]
  {}

  ghost predicate RowOk(row: Row) {
    && 1 <= row.maxAttempts <= 20
    && row.fence == row.attempt <= row.maxAttempts
    && (row.status.Pending? ==> row.attempt < row.maxAttempts)
    && (InFlight(row) ==>
          && row.worker != 0 && row.attempt >= 1
          && row.leaseUntil.Some? && row.availableAt <= row.leaseUntil.value)
  }

  ghost predicate TableOk(t: Table) { forall id :: id in t ==> id != 0 && RowOk(t[id]) }

  function Rank(s: Status): nat {
    match s
    case Leased => 3
    case Dispatched => 2
    case Pending => 1
    case _ => 0
  }

  ghost function Fuel(row: Row): nat
    requires row.attempt <= row.maxAttempts
  {
    4 * (row.maxAttempts - row.attempt) + Rank(row.status)
  }

  // Everything one event may do to one existing row.
  ghost predicate RowStep(a: Row, b: Row)
    requires a.attempt <= a.maxAttempts
  {
    && b.kind == a.kind && b.payload == a.payload && b.effect == a.effect && b.maxAttempts == a.maxAttempts
    && a.fence <= b.fence && b.attempt <= b.maxAttempts
    && (a == b || Fuel(b) < Fuel(a))
    && (Settled(a) ==> b == a)
    && (a.status.Dispatched? && a.effect.External? ==> b.status in {Dispatched, Done, Uncertain})
  }

  ghost predicate GoodStep(a: Row, b: Row) { RowOk(a) && RowOk(b) && RowStep(a, b) }

  lemma ExpiryIsGood(row: Row, now: int)
    requires RowOk(row)
    ensures GoodStep(row, ExpireExhausted(ExpireExternal(row, now), now))
  {}

  lemma ClaimIsGood(row: Row, worker: Id, lease: int, now: int)
    requires RowOk(row) && Claimable(row, now) && ValidLease(worker, lease)
    ensures GoodStep(row, ClaimedRow(row, worker, lease, now))
  {}

  lemma MoveIsGood(row: Row, m: Move, now: int)
    requires RowOk(row) && LeaseHeld(row, now) && Allowed(m, row.status)
    ensures GoodStep(row, Moved(m, row, now))
  {}

  lemma ClaimSteps(t: Table, worker: Id, lease: int, kinds: set<string>, locked: set<Id>, now: int, id: Id)
    requires TableOk(t) && id in t
    ensures var u := Claim(t, worker, lease, kinds, locked, now).0; id in u && GoodStep(t[id], u[id])
  {
    assert RowOk(t[id]);
    ExpiryIsGood(t[id], now);
    var u := Claim(t, worker, lease, kinds, locked, now).0;
    var x := Expire(t, now)[id];
    if u[id] != t[id] && u[id] != x { ClaimIsGood(x, worker, lease, now); }
  }

  lemma RowSteps(t: Table, e: Event, id: Id)
    requires TableOk(t) && id in t
    ensures id in Step(t, e) && RowOk(Step(t, e)[id]) && RowStep(t[id], Step(t, e)[id])
  {
    assert RowOk(t[id]);
    if e.ClaimEvent? {
      ClaimSteps(t, e.worker, e.lease, e.kinds, e.locked, e.now, id);
    } else if e.MoveEvent? {
      if Owns(t, e.job, e.move, e.now) && e.job.id == id { MoveIsGood(t[id], e.move, e.now); }
    }
  }

  // Every transaction keeps the table well formed, whatever the clock says.
  lemma StepKeepsTableOk(t: Table, e: Event)
    requires TableOk(t)
    ensures TableOk(Step(t, e)) && t.Keys <= Step(t, e).Keys
  {
    forall id | id in Step(t, e) ensures id != 0 && RowOk(Step(t, e)[id]) {
      if id in t { RowSteps(t, e, id); }
    }
    forall id | id in t ensures id in Step(t, e) { RowSteps(t, e, id); }
  }

  lemma {:induction false} RunKeepsTableOk(t: Table, es: seq<Event>)
    requires TableOk(t)
    ensures TableOk(Run(t, es)) && t.Keys <= Run(t, es).Keys
    decreases es
  {
    if es != [] {
      StepKeepsTableOk(t, es[0]);
      RunKeepsTableOk(Step(t, es[0]), es[1..]);
    }
  }

  // ---------------------------------------------------------------- retries are bounded

  ghost function Changes(t: Table, es: seq<Event>, id: Id): nat
    decreases es
  {
    if es == [] then 0
    else
      var u := Step(t, es[0]);
      (if id in t && id in u && u[id] != t[id] then 1 else 0) + Changes(u, es[1..], id)
  }

  // A job's row changes at most Fuel times in any run: 4 * maxAttempts + 1 for a new job.
  lemma {:induction false} RetriesAreBounded(t: Table, es: seq<Event>, id: Id)
    requires TableOk(t) && id in t
    ensures id in Run(t, es) && RowStep(t[id], Run(t, es)[id])
    ensures Changes(t, es, id) + Fuel(Run(t, es)[id]) <= Fuel(t[id])
    decreases es
  {
    if es != [] {
      RowSteps(t, es[0], id);
      StepKeepsTableOk(t, es[0]);
      RetriesAreBounded(Step(t, es[0]), es[1..], id);
    }
  }

  // A claim at `now` leaves no job of an expired lease behind: it settles it, takes
  // it, or finds it ready for any worker that asks for its kind.
  lemma NoJobIsStranded(t: Table, worker: Id, lease: int, kinds: set<string>, locked: set<Id>, now: int, id: Id)
    requires TableOk(t) && id in t && InFlight(t[id]) && Expired(t[id], now) && ValidLease(worker, lease)
    ensures var (u, job) := Claim(t, worker, lease, kinds, locked, now);
            && id in u
            && (Settled(u[id]) || (job.Some? && job.value.id == id) || Claimable(u[id], now))
  {
    assert RowOk(t[id]);
  }

  // A failed job put back waits: no worker can claim it within a second, and every worker
  // can after five minutes.
  lemma RetryWaits(row: Row, uncertain: bool, now: int, later: int)
    requires RowOk(row) && LeaseHeld(row, now) && Allowed(Fail(uncertain), row.status)
    requires Moved(Fail(uncertain), row, now).status.Pending?
    ensures later < now + SECOND ==> !Claimable(Moved(Fail(uncertain), row, now), later)
    ensures later >= now + 300 * SECOND ==> Claimable(Moved(Fail(uncertain), row, now), later)
  {
    var n := row.attempt;
    assert n * n >= n;
  }

  // ---------------------------------------------------------------- external effects start at most once

  ghost function DispatchCount(t: Table, es: seq<Event>, id: Id): nat
    decreases es
  {
    if es == [] then 0
    else
      var e := es[0];
      (if e.MoveEvent? && e.move.Dispatch? && e.job.id == id && Owns(t, e.job, e.move, e.now) then 1 else 0)
      + DispatchCount(Step(t, e), es[1..], id)
  }

  ghost predicate NeverAgain(t: Table, id: Id) {
    id in t && t[id].effect.External? && t[id].status in {Dispatched, Done, Uncertain}
  }

  // Once an external job has been dispatched no later event dispatches it again, and
  // its status stays dispatched, done or uncertain.
  lemma {:induction false} DispatchedExternalIsFinal(t: Table, es: seq<Event>, id: Id)
    requires TableOk(t) && NeverAgain(t, id)
    ensures NeverAgain(Run(t, es), id) && DispatchCount(t, es, id) == 0
    decreases es
  {
    if es != [] {
      RowSteps(t, es[0], id);
      StepKeepsTableOk(t, es[0]);
      DispatchedExternalIsFinal(Step(t, es[0]), es[1..], id);
    }
  }

  lemma {:induction false} ExternalDispatchedAtMostOnce(t: Table, es: seq<Event>, id: Id)
    requires TableOk(t) && id in t && t[id].effect.External?
    ensures DispatchCount(t, es, id) <= 1
    ensures DispatchCount(t, es, id) == 1 ==> NeverAgain(Run(t, es), id)
    decreases es
  {
    if es != [] {
      var e := es[0];
      RowSteps(t, e, id);
      StepKeepsTableOk(t, e);
      if e.MoveEvent? && e.move.Dispatch? && e.job.id == id && Owns(t, e.job, e.move, e.now) {
        DispatchedExternalIsFinal(Step(t, e), es[1..], id);
      } else {
        ExternalDispatchedAtMostOnce(Step(t, e), es[1..], id);
      }
    }
  }

  // Local work may be dispatched again, but every dispatch costs an attempt.
  lemma {:induction false} DispatchesCostAttempts(t: Table, es: seq<Event>, id: Id)
    requires TableOk(t) && id in t
    ensures DispatchCount(t, es, id) <= t[id].maxAttempts - t[id].attempt + (if t[id].status.Leased? then 1 else 0)
    decreases es
  {
    if es != [] {
      RowSteps(t, es[0], id);
      StepKeepsTableOk(t, es[0]);
      DispatchesCostAttempts(Step(t, es[0]), es[1..], id);
      assert RowOk(t[id]) && RowOk(Step(t, es[0])[id]);
    }
  }

  // ---------------------------------------------------------------- fencing

  // A claim's handle carries a fence no earlier handle of the job has, owns the job
  // until its lease ends, and is for a job that was ready and came first.
  lemma ClaimGivesAFreshFence(t: Table, worker: Id, lease: int, kinds: set<string>, locked: set<Id>, now: int)
    requires TableOk(t) && Claim(t, worker, lease, kinds, locked, now).1.Some?
    ensures var (u, job) := Claim(t, worker, lease, kinds, locked, now);
            var j := job.value;
            && j.id in t && j.id in u && j.id !in locked && j.fence == t[j.id].fence + 1 == u[j.id].fence
            && !(t[j.id].effect.External? && t[j.id].status.Dispatched?)
            && Wanted(t[j.id], kinds)
            && Owns(u, j, Dispatch, now)
            && (forall other :: (other in t && other !in locked && Wanted(t[other], kinds)
                                 && Claimable(Expire(t, now)[other], now)) ==>
                  || t[j.id].availableAt < t[other].availableAt
                  || (t[j.id].availableAt == t[other].availableAt && j.id <= other))
  {
    var (u, job) := Claim(t, worker, lease, kinds, locked, now);
    var j := job.value;
    var e := Expire(t, now);
    assert RowOk(t[j.id]);
    assert e[j.id].fence == t[j.id].fence;
    assert (lease / MILLISECOND) * MILLISECOND > 0;
    forall other | other in t && other !in locked && Wanted(t[other], kinds) && Claimable(e[other], now)
      ensures Before(t, j.id, other)
    {
      assert other in Candidates(e, now, kinds, locked);
      assert Before(e, j.id, other);
    }
  }

  // A handle older than the row's fence is refused for ever, by every operation.
  lemma {:induction false} StaleHandleIsFenced(t: Table, es: seq<Event>, j: Job, m: Move, now: int)
    requires TableOk(t) && j.id in t && j.fence < t[j.id].fence
    ensures !Owns(Run(t, es), j, m, now)
    ensures Transition(Run(t, es), j, m, now) == Run(t, es)
  {
    RetriesAreBounded(t, es, j.id);
  }

  // So of two claims of one job in a run, only the later one's handle still works.
  lemma NewerClaimFencesOlder(
      t: Table, worker: Id, lease: int, kinds: set<string>, locked: set<Id>, now: int, between: seq<Event>,
      worker2: Id, lease2: int, kinds2: set<string>, locked2: set<Id>, now2: int, after: seq<Event>, m: Move,
          later: int)
    requires TableOk(t)
    requires Claim(t, worker, lease, kinds, locked, now).1.Some?
    requires var (u, old1) := Claim(t, worker, lease, kinds, locked, now);
             var (v, new2) := Claim(Run(u, between), worker2, lease2, kinds2, locked2, now2);
             new2.Some? && new2.value.id == old1.value.id
    ensures var (u, old1) := Claim(t, worker, lease, kinds, locked, now);
            var (v, new2) := Claim(Run(u, between), worker2, lease2, kinds2, locked2, now2);
            && old1.value.fence < new2.value.fence
            && !Owns(Run(v, after), old1.value, m, later)
  {
    var (u, old1) := Claim(t, worker, lease, kinds, locked, now);
    ClaimGivesAFreshFence(t, worker, lease, kinds, locked, now);
    StepKeepsTableOk(t, ClaimEvent(worker, lease, kinds, locked, now));
    var mid := Run(u, between);
    RunKeepsTableOk(u, between);
    RetriesAreBounded(u, between, old1.value.id);
    ClaimGivesAFreshFence(mid, worker2, lease2, kinds2, locked2, now2);
    StepKeepsTableOk(mid, ClaimEvent(worker2, lease2, kinds2, locked2, now2));
    StaleHandleIsFenced(Claim(mid, worker2, lease2, kinds2, locked2, now2).0, after, old1.value, m, later);
  }
}
