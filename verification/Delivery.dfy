/**
 Delivery of proof messages: backend/internal/identity/delivery.go and worker.go on
 top of the outbox. Transactions are functions on the stored rows and methods of
 `Worker`; a `System` interleaves them with any number of worker threads, crashes,
 lease expiries, sweeps and unrelated queue traffic.
 */
module Delivery {
  import opened Wrappers
  import Outbox
  import Proofs

  type Id = nat
  const SECOND := 1_000_000_000
  const MINUTE := 60 * SECOND
  const PROOF_KIND := "identity.proof_delivery"

  datatype State = Pending | Dispatched | Sent | Failed | Uncertain | Cancelled

  datatype Delivery = Delivery(
    proof: Id, state: State, reason: string, ciphertext: string, nonce: string,
    dispatchedAt: Option<int>, createdAt: int)

  datatype Store = Store(jobs: Outbox.Table, deliveries: map<Id, Delivery>, proofs: map<Id, Proofs.Proof>)

  predicate Settled(s: State) { s.Sent? || s.Failed? || s.Uncertain? || s.Cancelled? }

  // The states that let a worker acknowledge the job.
  predicate Resolved(s: State) { s.Sent? || s.Failed? || s.Cancelled? }

  function Close(d: Delivery, s: State, reason: string): Delivery {
    d.(state := s, reason := reason, ciphertext := "", nonce := "")
  }

  predicate ProofLive(p: Proofs.Proof, now: int) { !p.consumed && !p.revoked && p.expires > now }

  predicate Stale(d: Delivery, now: int) { d.dispatchedAt.Some? && d.dispatchedAt.value < now - MINUTE }

  // ---------------------------------------------------------------- transactions

  // What the guard and the audit append answer, and the clock, in one transaction.
  // `inactive` is the session or organization check of the proof's owner failing.
  datatype World = World(guardOk: bool, auditOk: bool, inactive: bool, now: int)

  datatype Barrier = Opened(ciphertext: string, nonce: string, proof: Proofs.Proof) | Inactive | Refused

  function DispatchBarrier(st: Store, id: Id, w: World): (Store, Barrier) {
    if id !in st.deliveries || st.deliveries[id].proof !in st.proofs || !w.guardOk || !w.auditOk then (st, Refused)
    else
      var d := st.deliveries[id];
      var p := st.proofs[d.proof];
      if d.state != Pending then (st, Refused)
      else if (w.inactive && p.session.Some?) || !ProofLive(p, w.now) then
        (st.(deliveries := st.deliveries[id := Close(d, Cancelled, "proof_inactive")]), Inactive)
      else
        (st.(deliveries := st.deliveries[id := d.(state := Dispatched, dispatchedAt := Some(w.now))]),
         Opened(d.ciphertext, d.nonce, p))
  }

  function Settle(st: Store, id: Id, outcome: State, reason: string, w: World): (Store, bool) {
    if id in st.deliveries && w.guardOk && w.auditOk && st.deliveries[id].state.Dispatched?
    then (st.(deliveries := st.deliveries[id := Close(st.deliveries[id], outcome, reason)]), true)
    else (st, false)
  }

  function MarkUncertain(st: Store, id: Id, w: World): (Store, bool) {
    if id in st.deliveries && st.deliveries[id].proof in st.proofs && w.guardOk && w.auditOk
       && st.deliveries[id].state.Dispatched? && Stale(st.deliveries[id], w.now)
    then (st.(deliveries := st.deliveries[id := Close(st.deliveries[id], Uncertain, "worker_outcome_unknown")]), true)
    else (st, false)
  }

  predicate JobFor(row: Outbox.Row, id: Id) { row.kind == PROOF_KIND && row.payload.delivery == Some(id) }

  predicate QueueUnknown(jobs: Outbox.Table, id: Id, now: int) {
    exists j :: j in jobs && JobFor(jobs[j], id) &&
      (jobs[j].status.Uncertain? || (jobs[j].status.Dispatched? && Outbox.Expired(jobs[j], now)))
  }

  predicate QueueFailed(jobs: Outbox.Table, id: Id) {
    exists j :: j in jobs && JobFor(jobs[j], id) && jobs[j].status.Failed?
  }

  // How a sweep settles a delivery, if it does.
  function SweepVerdict(st: Store, id: Id, now: int): Option<(State, string)>
    requires id in st.deliveries && st.deliveries[id].proof in st.proofs
  {
    var d := st.deliveries[id];
    if (d.state.Dispatched? && Stale(d, now)) || (d.state.Pending? && QueueUnknown(st.jobs, id, now)) then
      Some((Uncertain, "worker_outcome_unknown"))
    else if d.state.Pending? && !ProofLive(st.proofs[d.proof], now) then Some((Cancelled, "proof_inactive"))
    else if d.state.Pending? && QueueFailed(st.jobs, id) then Some((Failed, "worker_abandoned"))
    else None
  }

  function SweepOne(st: Store, id: Id, now: int): Store {
    if id !in st.deliveries || st.deliveries[id].proof !in st.proofs then st
    else
      match SweepVerdict(st, id, now)
      case None => st
      case Some((outcome, reason)) => st.(deliveries := st.deliveries[id := Close(st.deliveries[id], outcome, reason)])
  }

  function SweepAll(st: Store, ids: seq<Id>, now: int): Store
    decreases ids
  {
    if ids == [] then st else SweepOne(SweepAll(st, ids[..|ids| - 1], now), ids[|ids| - 1], now)
  }

  // The clock of one row's transaction and whether a lock, a write or the audit fails in it.
  datatype Turn = Turn(now: int, fails: bool)

  datatype Swept = Swept(store: Store, count: nat, ok: bool)

  // The first k rows of a sweep among other transactions.
  ghost function SweepRun(st: Store, ids: seq<Id>, k: nat, others: (nat, Store) -> Store, turn: nat -> Turn): Swept
    requires k <= |ids|
  {
    if k == 0 then Swept(st, 0, true)
    else
      var before := SweepRun(st, ids, k - 1, others, turn);
      if !before.ok then before
      else
        var (id, found) := (ids[k - 1], others(k - 1, before.store));
        if turn(k - 1).fails || id !in found.deliveries || found.deliveries[id].proof !in found.proofs
        then Swept(found, before.count, false)
        else Swept(SweepOne(found, id, turn(k - 1).now),
                   before.count + (if Sweepable(found, id, turn(k - 1).now) then 1 else 0), true)
  }

  // The rows the sweep's query selects.
  predicate Sweepable(st: Store, id: Id, now: int) {
    id in st.deliveries && st.deliveries[id].proof in st.proofs && SweepVerdict(st, id, now).Some?
  }

  predicate Older(st: Store, a: Id, b: Id)
    requires a in st.deliveries && b in st.deliveries
  {
    st.deliveries[a].createdAt < st.deliveries[b].createdAt
    || (st.deliveries[a].createdAt == st.deliveries[b].createdAt && a <= b)
  }

  predicate IsOldest(st: Store, ids: set<Id>, id: Id)
    requires ids <= st.deliveries.Keys
  {
    id in ids && forall other :: other in ids ==> Older(st, id, other)
  }

  // `ids` are the first of the sweepable deliveries in (created_at, id) order.
  ghost predicate Batch(st: Store, ids: seq<Id>, now: int) {
    && (forall i :: 0 <= i < |ids| ==> Sweepable(st, ids[i], now))
    && (forall i, j :: 0 <= i < j < |ids| ==> ids[i] != ids[j] && Older(st, ids[i], ids[j]))
    && (forall other, i :: Sweepable(st, other, now) && other !in ids && 0 <= i < |ids| ==> Older(st, ids[i], other))
  }

  // ---------------------------------------------------------------- the transactions in terms of columns

  // A pending delivery is opened exactly when its proof is unspent, unrevoked and unexpired
  // and the check of its session, if it names one, did not fail; otherwise it is cancelled
  // and erased.
  lemma BarrierInColumns(st: Store, id: Id, w: World)
    ensures var (n, b) := DispatchBarrier(st, id, w);
            if id !in st.deliveries || st.deliveries[id].proof !in st.proofs || !w.guardOk || !w.auditOk
               || st.deliveries[id].state != Pending
            then (n, b) == (st, Refused)
            else
              var d := st.deliveries[id];
              var p := st.proofs[d.proof];
              if !p.consumed && !p.revoked && w.now < p.expires && (p.session.None? || !w.inactive)
              then && b == Opened(d.ciphertext, d.nonce, p)
                   && n == Store(st.jobs,
                                 st.deliveries[id := d.(state := Dispatched, dispatchedAt := Some(w.now))], st.proofs)
              else && b == Inactive
                   && n == Store(st.jobs, st.deliveries[id := Delivery(
                                   d.proof, Cancelled, "proof_inactive", "", "", d.dispatchedAt, d.createdAt)],
                                 st.proofs)
  {}

  // A result is recorded on a dispatched delivery only, and erases the message.
  lemma SettleInColumns(st: Store, id: Id, outcome: State, reason: string, w: World)
    ensures Settle(st, id, outcome, reason, w)
         == if id in st.deliveries && st.deliveries[id].state == Dispatched && w.guardOk && w.auditOk
            then
              var d := st.deliveries[id];
              (Store(st.jobs, st.deliveries[id := Delivery(
                       d.proof, outcome, reason, "", "", d.dispatchedAt, d.createdAt)], st.proofs), true)
            else (st, false)
  {}

  // So is the recovery of one dispatched more than a minute ago.
  lemma MarkInColumns(st: Store, id: Id, w: World)
    ensures MarkUncertain(st, id, w)
         == if && id in st.deliveries && st.deliveries[id].proof in st.proofs && w.guardOk && w.auditOk
               && st.deliveries[id].state == Dispatched && st.deliveries[id].dispatchedAt.Some?
               && st.deliveries[id].dispatchedAt.value + 60_000_000_000 < w.now
            then
              var d := st.deliveries[id];
              (Store(st.jobs, st.deliveries[id := Delivery(
                       d.proof, Uncertain, "worker_outcome_unknown", "", "", d.dispatchedAt, d.createdAt)],
                     st.proofs), true)
            else (st, false)
  {}

  // The delivery has a job in this status ...
  ghost predicate HasJob(jobs: Outbox.Table, id: Id, status: Outbox.Status) {
    exists j :: j in jobs && jobs[j].kind == "identity.proof_delivery" && jobs[j].payload.delivery == Some(id)
                && jobs[j].status == status
  }

  // ... or one that was dispatched and has lost its lease.
  ghost predicate HasDeadJob(jobs: Outbox.Table, id: Id, now: int) {
    exists j :: j in jobs && jobs[j].kind == "identity.proof_delivery" && jobs[j].payload.delivery == Some(id)
                && jobs[j].status.Dispatched? && jobs[j].leaseUntil.Some? && jobs[j].leaseUntil.value <= now
  }

  // What a sweep makes of one delivery: uncertain after a minute of dispatch or when its
  // queued job is lost, cancelled when its proof has ended, failed when its job has.
  lemma SweepInColumns(st: Store, id: Id, now: int)
    requires id in st.deliveries && st.deliveries[id].proof in st.proofs
    ensures var d := st.deliveries[id];
            var p := st.proofs[d.proof];
            var lost := HasJob(st.jobs, id, Outbox.Uncertain) || HasDeadJob(st.jobs, id, now);
            var outcome :=
              if (d.state.Dispatched? && d.dispatchedAt.Some? && d.dispatchedAt.value + 60_000_000_000 < now)
                 || (d.state.Pending? && lost) then Some((Uncertain, "worker_outcome_unknown"))
              else if d.state.Pending? && (p.consumed || p.revoked || p.expires <= now)
              then Some((Cancelled, "proof_inactive"))
              else if d.state.Pending? && HasJob(st.jobs, id, Outbox.Failed) then Some((Failed, "worker_abandoned"))
              else None;
            && (Sweepable(st, id, now) <==> outcome.Some?)
            && SweepOne(st, id, now)
               == if outcome.None? then st
                  else Store(st.jobs, st.deliveries[id := Delivery(
                               d.proof, outcome.value.0, outcome.value.1, "", "", d.dispatchedAt, d.createdAt)],
                             st.proofs)
  {
    LostInColumns(st.jobs, id, now);
    FailedInColumns(st.jobs, id);
  }

  lemma LostInColumns(jobs: Outbox.Table, id: Id, now: int)
    ensures QueueUnknown(jobs, id, now) <==> HasJob(jobs, id, Outbox.Uncertain) || HasDeadJob(jobs, id, now)
  {
    if QueueUnknown(jobs, id, now) {
      var j :| j in jobs && JobFor(jobs[j], id) &&
        (jobs[j].status.Uncertain? || (jobs[j].status.Dispatched? && Outbox.Expired(jobs[j], now)));
      assert jobs[j].kind == "identity.proof_delivery" && jobs[j].payload.delivery == Some(id);
    }
  }

  lemma FailedInColumns(jobs: Outbox.Table, id: Id)
    ensures QueueFailed(jobs, id) <==> HasJob(jobs, id, Outbox.Failed)
  {
    if QueueFailed(jobs, id) {
      var j :| j in jobs && JobFor(jobs[j], id) && jobs[j].status.Failed?;
      assert jobs[j].kind == "identity.proof_delivery" && jobs[j].payload.delivery == Some(id);
    }
  }

  // ---------------------------------------------------------------- the worker's methods

  class Worker {
    var store: Store

    constructor (initial: Store)
      ensures store == initial
    {
      store := initial;
    }

    method BeginDelivery(id: Id, w: World) returns (b: Barrier)
      modifies this
      ensures (store, b) == DispatchBarrier(old(store), id, w)
    {
      if id !in store.deliveries || store.deliveries[id].proof !in store.proofs || !w.guardOk {
        return Refused;
      }
      var tx := store;
      var d := tx.deliveries[id];
      var row := tx.proofs[d.proof];
      var inactive := false;
      if row.session.Some? {
        inactive := w.inactive;
      }
      if d.state != Pending {
        return Refused;
      }
      if inactive || row.consumed || row.revoked || row.expires <= w.now {
        tx := tx.(deliveries := tx.deliveries[id := Close(d, Cancelled, "proof_inactive")]);
        b := Inactive;
      } else {
        tx := tx.(deliveries := tx.deliveries[id := d.(state := Dispatched, dispatchedAt := Some(w.now))]);
        b := Opened(d.ciphertext, d.nonce, row);
      }
      if !w.auditOk {
        return Refused;
      }
      store := tx;
    }

    method FinishDelivery(id: Id, outcome: State, reason: string, w: World) returns (ok: bool)
      modifies this
      ensures (store, ok) == Settle(old(store), id, outcome, reason, w)
    {
      if !w.guardOk || id !in store.deliveries || store.deliveries[id].state != Dispatched || !w.auditOk {
        return false;
      }
      store := store.(deliveries := store.deliveries[id := Close(store.deliveries[id], outcome, reason)]);
      return true;
    }

    method MarkDeliveryUncertain(id: Id, w: World) returns (ok: bool)
      modifies this
      ensures (store, ok) == MarkUncertain(old(store), id, w)
    {
      if id !in store.deliveries || store.deliveries[id].proof !in store.proofs || !w.guardOk || !w.auditOk {
        return false;
      }
      var d := store.deliveries[id];
      if d.state != Dispatched || d.dispatchedAt.None? || d.dispatchedAt.value >= w.now - MINUTE {
        return false;
      }
      store := store.(deliveries := store.deliveries[id := Close(d, Uncertain, "worker_outcome_unknown")]);
      return true;
    }

    // The sweep's SELECT: repeatedly take the oldest row not yet taken, at most `limit`.
    method Select(limit: nat, now: int) returns (ids: seq<Id>)
      ensures Batch(store, ids, now) && |ids| <= limit
      ensures forall i, j :: 0 <= i < j < |ids| ==>
                && ids[i] in store.deliveries && ids[j] in store.deliveries
                && (|| store.deliveries[ids[i]].createdAt < store.deliveries[ids[j]].createdAt
                    || (store.deliveries[ids[i]].createdAt == store.deliveries[ids[j]].createdAt && ids[i] < ids[j]))
      ensures |ids| < limit ==> forall id :: Sweepable(store, id, now) ==> id in ids
    {
      var rest := set id | id in store.deliveries && Sweepable(store, id, now);
      ids := [];
      while rest != {} && |ids| < limit
        invariant |ids| <= limit
        invariant Batch(store, ids, now)
        invariant forall id :: id in rest <==> Sweepable(store, id, now) && id !in ids
        decreases limit - |ids|
      {
        OldestExists(store, rest);
        var next: Id :| IsOldest(store, rest, next);
        assert forall i :: 0 <= i < |ids| ==> Older(store, ids[i], next);
        ids := ids + [next];
        rest := rest - {next};
      }
    }

    // The sweep's own loop: one transaction a row, and the first that fails ends it. Before
    // each of them other transactions may do anything to the store.
    method SweepDeliveries(now: int, others: (nat, Store) -> Store, turn: nat -> Turn)
      returns (count: nat, ok: bool, ghost ids: seq<Id>)
      modifies this
      ensures Batch(old(store), ids, now) && |ids| <= 100
      ensures |ids| < 100 ==> forall id :: Sweepable(old(store), id, now) ==> id in ids
      ensures Swept(store, count, ok) == SweepRun(old(store), ids, |ids|, others, turn)
    {
      var chosen := Select(100, now);
      ids := chosen;
      count := 0;
      var i := 0;
      while i < |chosen|
        invariant 0 <= i <= |chosen|
        invariant Swept(store, count, true) == SweepRun(old(store), chosen, i, others, turn)
      {
        store := others(i, store);
        var changed;
        ok, changed := SweepRow(chosen[i], turn(i));
        if !ok {
          SweepStops(old(store), chosen, i + 1, |chosen|, others, turn);
          return count, false, ids;
        }
        if changed {
          count := count + 1;
        }
        i := i + 1;
      }
      ok := true;
    }

    // One row's transaction.
    method SweepRow(id: Id, t: Turn) returns (ok: bool, changed: bool)
      modifies this
      ensures ok <==> !t.fails && id in old(store).deliveries && old(store).deliveries[id].proof in old(store).proofs
      ensures store == if ok then SweepOne(old(store), id, t.now) else old(store)
      ensures ok ==> (changed <==> Sweepable(old(store), id, t.now))
    {
      changed := false;
      if t.fails || id !in store.deliveries || store.deliveries[id].proof !in store.proofs {
        return false, false;
      }
      var verdict := SweepVerdict(store, id, t.now);
      if verdict.Some? {
        store := store.(deliveries :=
            store.deliveries[id := Close(store.deliveries[id], verdict.value.0, verdict.value.1)]);
        changed := true;
      }
      return true, changed;
    }
  }

  lemma {:induction false} OldestExists(st: Store, ids: set<Id>)
    requires ids != {} && ids <= st.deliveries.Keys
    ensures exists id :: IsOldest(st, ids, id)
    decreases ids
  {
    var some: Id :| some in ids;
    if ids == {some} {
      assert IsOldest(st, ids, some);
    } else {
      OldestExists(st, ids - {some});
      var best: Id :| IsOldest(st, ids - {some}, best);
      OlderOfTwo(st, ids, some, best);
    }
  }

  lemma OlderOfTwo(st: Store, ids: set<Id>, some: Id, best: Id)
    requires some in ids && ids <= st.deliveries.Keys && IsOldest(st, ids - {some}, best)
    ensures IsOldest(st, ids, if Older(st, some, best) then some else best)
  {
    forall other | other in ids
      ensures Older(st, if Older(st, some, best) then some else best, other)
    {
      if other != some { assert Older(st, best, other); }
    }
  }

  lemma {:induction false} SweepAllTouchesOnly(st: Store, ids: seq<Id>, now: int)
    ensures var s := SweepAll(st, ids, now);
            && s.jobs == st.jobs && s.proofs == st.proofs && s.deliveries.Keys == st.deliveries.Keys
            && forall id :: id in st.deliveries && id !in ids ==> s.deliveries[id] == st.deliveries[id]
    decreases ids
  {
    if ids != [] {
      var n := |ids| - 1;
      SweepAllTouchesOnly(st, ids[..n], now);
      forall id | id in st.deliveries && id !in ids
        ensures SweepAll(st, ids, now).deliveries[id] == st.deliveries[id]
      {
        assert id !in ids[..n] && id != ids[n];
      }
    }
  }

  lemma {:induction false} SweepAllSettles(st: Store, ids: seq<Id>, now: int, k: nat)
    requires k < |ids| && (forall i :: 0 <= i < |ids| ==> Sweepable(st, ids[i], now))
    requires forall i, j :: 0 <= i < j < |ids| ==> ids[i] != ids[j]
    ensures var s := SweepAll(st, ids, now);
            ids[k] in s.deliveries && Settled(s.deliveries[ids[k]].state) && s.deliveries[ids[k]].ciphertext == ""
    decreases ids
  {
    var n := |ids| - 1;
    SweepAllTouchesOnly(st, ids[..n], now);
    if k < n {
      SweepAllSettles(st, ids[..n], now, k);
    } else {
      assert ids[n] !in ids[..n];
      SweptIsSettled(SweepAll(st, ids[..n], now), ids[n], now);
    }
  }

  lemma {:induction false} SweepStops(
      st: Store, ids: seq<Id>, k: nat, n: nat, others: (nat, Store) -> Store, turn: nat -> Turn)
    requires k <= n <= |ids| && !SweepRun(st, ids, k, others, turn).ok
    ensures SweepRun(st, ids, n, others, turn) == SweepRun(st, ids, k, others, turn)
    decreases n
  {
    if k < n { SweepStops(st, ids, k, n - 1, others, turn); }
  }

  lemma {:induction false} UndisturbedSweepIsSweepAll(
      st: Store, ids: seq<Id>, k: nat, now: int, others: (nat, Store) -> Store, turn: nat -> Turn)
    requires Batch(st, ids, now) && k <= |ids|
    requires (forall i, s :: others(i, s) == s) && (forall i :: turn(i) == Turn(now, false))
    ensures SweepRun(st, ids, k, others, turn) == Swept(SweepAll(st, ids[..k], now), k, true)
    decreases k
  {
    if k > 0 {
      UndisturbedSweepIsSweepAll(st, ids, k - 1, now, others, turn);
      NextRowIsUntouched(st, ids, k - 1, now);
      SweepAllStep(st, ids, k, now);
    }
  }

  lemma SweepAllStep(st: Store, ids: seq<Id>, k: nat, now: int)
    requires 0 < k <= |ids|
    ensures SweepAll(st, ids[..k], now) == SweepOne(SweepAll(st, ids[..k - 1], now), ids[k - 1], now)
  {
    assert ids[..k][..k - 1] == ids[..k - 1];
  }

  // Undisturbed, the sweep settles, erases and counts exactly the selected deliveries, and
  // touches no job, proof or other delivery.
  lemma UndisturbedSweep(st: Store, ids: seq<Id>, now: int, others: (nat, Store) -> Store, turn: nat -> Turn)
    requires Batch(st, ids, now)
    requires (forall i, s :: others(i, s) == s) && (forall i :: turn(i) == Turn(now, false))
    ensures var s := SweepRun(st, ids, |ids|, others, turn);
            && s.ok && s.count == |ids|
            && s.store.jobs == st.jobs && s.store.proofs == st.proofs && s.store.deliveries.Keys == st.deliveries.Keys
            && (forall id :: id in st.deliveries && id !in ids ==> s.store.deliveries[id] == st.deliveries[id])
            && (forall id :: id in ids ==>
                  && id in s.store.deliveries && Settled(s.store.deliveries[id].state)
                  && s.store.deliveries[id].ciphertext == "")
  {
    UndisturbedSweepIsSweepAll(st, ids, |ids|, now, others, turn);
    assert ids[..|ids|] == ids;
    SweepAllTouchesOnly(st, ids, now);
    var all := SweepAll(st, ids, now).deliveries;
    forall id | id in ids ensures id in all && Settled(all[id].state) && all[id].ciphertext == "" {
      var k: nat :| k < |ids| && ids[k] == id;
      SweepAllSettles(st, ids, now, k);
    }
  }

  lemma NextRowIsUntouched(st: Store, ids: seq<Id>, k: nat, now: int)
    requires Batch(st, ids, now) && k < |ids|
    ensures Sweepable(SweepAll(st, ids[..k], now), ids[k], now)
  {
    SweepAllTouchesOnly(st, ids[..k], now);
    assert ids[k] !in ids[..k] && Sweepable(st, ids[k], now);
  }

  lemma SweptIsSettled(st: Store, id: Id, now: int)
    requires Sweepable(st, id, now)
    ensures var s := SweepOne(st, id, now);
            id in s.deliveries && Settled(s.deliveries[id].state) && s.deliveries[id].ciphertext == ""
  {}

  // ---------------------------------------------------------------- the system

  // Where a thread of StepDelivery stands. Between any two positions other threads,
  // sweeps and requests may run.
  datatype Pc =
    | Idle
    | Claimed(job: Outbox.Job)
    | Ready(job: Outbox.Job, id: Id)
    | Delivering(job: Outbox.Job, id: Id)
    | Sending(job: Outbox.Job, id: Id, proof: Proofs.Proof, barrier: World)
    | Settling(job: Outbox.Job, id: Id, outcome: State)
    | Checking(job: Outbox.Job, id: Id)
    | Acking(job: Outbox.Job, id: Id)
    | Failing(job: Outbox.Job, uncertain: bool)

  // One entry of `Sender.Send`, with the proof that the barrier before it saw, and how the
  // guard, the checks and the clock answered there.
  datatype Send = Send(id: Id, proof: Proofs.Proof, barrier: World)

  datatype System = System(store: Store, threads: map<Id, Pc>, sends: seq<Send>)

  datatype Event =
    | Claim(thread: Id, worker: Id, locked: set<Id>, now: int)
    | Inspect(thread: Id, readable: bool)
    | QueueDispatch(thread: Id, now: int)
    | Begin(thread: Id, w: World)
    // Custody opens the message or not; the sender answers with any state.
    | Transmit(thread: Id, opens: bool, answer: State)
    | Finish(thread: Id, w: World)
    | Recheck(thread: Id, readable: bool)
    | Report(thread: Id, now: int)
    | Crash(thread: Id)
    | Sweep(id: Id, now: int)
    | Mark(id: Id, w: World)
    | NewProof(id: Id, proofId: Id, proof: Proofs.Proof, jobId: Id, ciphertext: string, nonce: string, size: nat,
        now: int)
    | ProofChange(proofId: Id, consumed: bool, revoked: bool, attempts: nat)
    | OtherQueue(e: Outbox.Event)

  function PcOf(s: System, thread: Id): Pc { if thread in s.threads then s.threads[thread] else Idle }

  function Goto(s: System, thread: Id, pc: Pc): System { s.(threads := s.threads[thread := pc]) }

  // No other worker serves this kind of job.
  predicate Unrelated(jobs: Outbox.Table, e: Outbox.Event) {
    match e
    case EnqueueEvent(id, kind, payload, effect, maxAttempts, now) => kind != PROOF_KIND
    case ClaimEvent(worker, lease, kinds, locked, now) => kinds != {} && PROOF_KIND !in kinds
    case MoveEvent(job, move, now) => job.id in jobs ==> jobs[job.id].kind != PROOF_KIND
    case Abandon(doomed) => forall id :: id in doomed && id in jobs ==> jobs[id].kind != PROOF_KIND
  }

  // A delivery whose state cannot be read fails the job like one that is missing.
  function AfterInspection(st: Store, job: Outbox.Job, readable: bool): Pc {
    if job.payload.delivery.None? || job.payload.delivery.value == 0 || !job.effect.External? then Failing(job, false)
    else
      var id := job.payload.delivery.value;
      if !readable || id !in st.deliveries then Failing(job, false)
      else if Resolved(st.deliveries[id].state) then Acking(job, id)
      else if st.deliveries[id].state.Uncertain? then Failing(job, true)
      else Ready(job, id)
  }

  // Answers other than the three known ones count as unknown acceptance.
  function Normalize(answer: State): State {
    if answer.Sent? || answer.Failed? then answer else Uncertain
  }

  ghost function Step(s: System, e: Event): System {
    match e
    case Claim(thread, worker, locked, now) =>
      if !PcOf(s, thread).Idle? then s
      else
        var (jobs, job) := Outbox.Claim(s.store.jobs, worker, MINUTE, {PROOF_KIND}, locked, now);
        var next := s.(store := s.store.(jobs := jobs));
        if job.None? then next else Goto(next, thread, Claimed(job.value))
    case Inspect(thread, readable) =>
      var pc := PcOf(s, thread);
      if pc.Claimed? then Goto(s, thread, AfterInspection(s.store, pc.job, readable)) else s
    case QueueDispatch(thread, now) =>
      var pc := PcOf(s, thread);
      if !pc.Ready? then s
      else if !Outbox.Owns(s.store.jobs, pc.job, Outbox.Dispatch, now) then Goto(s, thread, Idle)
      else Goto(s.(store := s.store.(jobs := Outbox.Transition(s.store.jobs, pc.job, Outbox.Dispatch, now))),
                thread, Delivering(pc.job, pc.id))
    case Begin(thread, w) =>
      var pc := PcOf(s, thread);
      if !pc.Delivering? then s
      else
        var (store, b) := DispatchBarrier(s.store, pc.id, w);
        Goto(s.(store := store), thread,
             match b
             case Opened(ciphertext, nonce, proof) => Sending(pc.job, pc.id, proof, w)
             case Inactive => Acking(pc.job, pc.id)
             case Refused => Checking(pc.job, pc.id))
    case Transmit(thread, opens, answer) =>
      var pc := PcOf(s, thread);
      if !pc.Sending? then s
      else if !opens then Goto(s, thread, Settling(pc.job, pc.id, Failed))
      else Goto(s.(sends := s.sends + [Send(pc.id, pc.proof, pc.barrier)]),
                thread, Settling(pc.job, pc.id, Normalize(answer)))
    case Finish(thread, w) =>
      var pc := PcOf(s, thread);
      if !pc.Settling? then s
      else
        var (store, ok) := Settle(s.store, pc.id, pc.outcome, "", w);
        Goto(s.(store := store), thread,
             if !ok then Checking(pc.job, pc.id)
             else if pc.outcome.Uncertain? then Failing(pc.job, true)
             else Acking(pc.job, pc.id))
    case Recheck(thread, readable) =>
      var pc := PcOf(s, thread);
      if !pc.Checking? then s
      else if readable && pc.id in s.store.deliveries && Resolved(s.store.deliveries[pc.id].state)
      then Goto(s, thread, Acking(pc.job, pc.id))
      else Goto(s, thread, Failing(pc.job, true))
    case Report(thread, now) =>
      var pc := PcOf(s, thread);
      if pc.Acking? then
        Goto(s.(store := s.store.(jobs := Outbox.Transition(s.store.jobs, pc.job, Outbox.Ack, now))), thread, Idle)
      else if pc.Failing? then
        Goto(s.(store := s.store.(jobs := Outbox.Transition(s.store.jobs, pc.job, Outbox.Fail(pc.uncertain), now))),
            thread, Idle)
      else s
    case Crash(thread) => Goto(s, thread, Idle)
    case Sweep(id, now) => s.(store := SweepOne(s.store, id, now))
    case Mark(id, w) => s.(store := MarkUncertain(s.store, id, w).0)
    case NewProof(id, proofId, proof, jobId, ciphertext, nonce, size, now) =>
      var payload := Outbox.Payload(size, true, Some(id));
      if id == 0 || id in s.store.deliveries || proofId in s.store.proofs || jobId in s.store.jobs
         || !Outbox.ValidEnqueue(jobId, PROOF_KIND, payload, 1)
         || (exists j :: j in s.store.jobs && JobFor(s.store.jobs[j], id)) then s
      else s.(store := Store(
        s.store.jobs[jobId := Outbox.Enqueued(PROOF_KIND, payload, Outbox.External, 1, now)],
        s.store.deliveries[id := Delivery(proofId, Pending, "", ciphertext, nonce, None, now)],
        s.store.proofs[proofId := proof]))
    case ProofChange(proofId, consumed, revoked, attempts) =>
      if proofId in s.store.proofs
      then
        var p := s.store.proofs[proofId].(consumed := consumed, revoked := revoked, attempts := attempts);
        s.(store := s.store.(proofs := s.store.proofs[proofId := p]))
      else s
    case OtherQueue(oe) =>
      if Unrelated(s.store.jobs, oe) then s.(store := s.store.(jobs := Outbox.Step(s.store.jobs, oe))) else s
  }

  ghost function Run(s: System, es: seq<Event>): System
    decreases es
  {
    if es == [] then s else Run(Step(s, es[0]), es[1..])
  }

  const INITIAL := System(Store(map[], map[], map[]), map[], [])
}
