/** What every interleaving of the delivery system keeps, and what follows from it. */
module DeliveryProofs {
  import opened Wrappers
  import opened Delivery
  import Outbox
  import Proofs

  // ---------------------------------------------------------------- how rows move

  // A delivery leaves pending at most once, and once settled it is erased and final.
  ghost predicate DeliveryStep(a: Delivery, b: Delivery) {
    && b.proof == a.proof && b.createdAt == a.createdAt
    && (|| b == a
        || (a.state.Pending? && b.dispatchedAt.Some? && b == a.(state := Dispatched, dispatchedAt := b.dispatchedAt))
        || (!Settled(a.state) && Settled(b.state) && b.ciphertext == "" && b.nonce == ""))
  }

  // The row but for its flags and its counter of wrong guesses.
  ghost predicate SameProof(a: Proofs.Proof, b: Proofs.Proof) {
    b == a.(consumed := b.consumed, revoked := b.revoked, attempts := b.attempts)
  }

  // The proof is the row this delivery names.
  ghost predicate IsProofOf(st: Store, id: Id, proof: Proofs.Proof) {
    && id in st.deliveries && st.deliveries[id].proof in st.proofs
    && SameProof(st.proofs[st.deliveries[id].proof], proof)
  }

  ghost predicate JobStep(a: Outbox.Row, b: Outbox.Row) {
    && b.kind == a.kind && b.payload == a.payload && b.effect == a.effect && b.maxAttempts == a.maxAttempts
  }

  ghost predicate StoreStep(st: Store, to: Store) {
    && (forall j :: j in st.jobs ==> j in to.jobs && JobStep(st.jobs[j], to.jobs[j]))
    && (forall d :: d in st.deliveries ==> d in to.deliveries && DeliveryStep(st.deliveries[d], to.deliveries[d]))
    && (forall p :: p in st.proofs ==> p in to.proofs && SameProof(st.proofs[p], to.proofs[p]))
  }

  // ---------------------------------------------------------------- the invariant

  ghost predicate HoldsJob(jobs: Outbox.Table, job: Outbox.Job) {
    && job.id in jobs && jobs[job.id].kind == PROOF_KIND
    && jobs[job.id].payload == job.payload && jobs[job.id].effect == job.effect
  }

  ghost predicate Serves(st: Store, job: Outbox.Job, id: Id) {
    HoldsJob(st.jobs, job) && job.payload.delivery == Some(id) && id in st.deliveries
  }

  ghost predicate Sends(sends: seq<Send>, id: Id) { exists i :: 0 <= i < |sends| && sends[i].id == id }

  // What the barrier before a send saw: the proof live and its session check, if any, passed.
  ghost predicate Passed(proof: Proofs.Proof, w: World) {
    ProofLive(proof, w.now) && (w.inactive ==> proof.session.None?)
  }

  ghost predicate ThreadOk(st: Store, sends: seq<Send>, pc: Pc) {
    match pc
    case Idle => true
    case Claimed(job) => HoldsJob(st.jobs, job)
    case Failing(job, _) => HoldsJob(st.jobs, job)
    case Ready(job, id) => Serves(st, job, id)
    case Delivering(job, id) => Serves(st, job, id)
    case Checking(job, id) => Serves(st, job, id)
    case Sending(job, id, proof, barrier) =>
      && Serves(st, job, id) && st.deliveries[id].state != Pending && !Sends(sends, id)
      && IsProofOf(st, id, proof) && Passed(proof, barrier)
    case Settling(job, id, outcome) =>
      Serves(st, job, id) && st.deliveries[id].state != Pending
          && (outcome.Sent? || outcome.Failed? || outcome.Uncertain?)
    case Acking(job, id) => Serves(st, job, id) && Resolved(st.deliveries[id].state)
  }

  ghost predicate ThreadsOk(s: System) {
    forall t :: t in s.threads ==> ThreadOk(s.store, s.sends, s.threads[t])
  }

  // No two threads are between the barrier and the send of one delivery.
  ghost predicate OneSender(s: System) {
    forall t, u :: (t in s.threads && u in s.threads && s.threads[t].Sending? && s.threads[u].Sending?
                    && s.threads[t].id == s.threads[u].id) ==> t == u
  }

  ghost predicate SendsOk(st: Store, sends: seq<Send>) {
    && (forall i, j :: 0 <= i < j < |sends| ==> sends[i].id != sends[j].id)
    && (forall i :: 0 <= i < |sends| ==>
          && IsProofOf(st, sends[i].id, sends[i].proof) && Passed(sends[i].proof, sends[i].barrier)
          && st.deliveries[sends[i].id].state != Pending)
  }

  ghost predicate DeliveryOk(d: Delivery) {
    && (Settled(d.state) ==> d.ciphertext == "" && d.nonce == "")
    && (d.state.Dispatched? ==> d.dispatchedAt.Some?)
  }

  ghost predicate IsJobOf(row: Outbox.Row, id: Id) {
    JobFor(row, id) && row.effect.External? && row.maxAttempts == 1
  }

  ghost predicate DeliveriesOk(st: Store) {
    forall d :: d in st.deliveries ==>
      && DeliveryOk(st.deliveries[d]) && st.deliveries[d].proof in st.proofs
      && exists j :: j in st.jobs && IsJobOf(st.jobs[j], d)
  }

  // A proof job that is done belongs to a delivery that was sent, failed or cancelled.
  ghost predicate DoneIsResolved(st: Store) {
    forall j :: j in st.jobs && st.jobs[j].kind == PROOF_KIND && st.jobs[j].status.Done? ==>
      && st.jobs[j].payload.delivery.Some? && st.jobs[j].payload.delivery.value in st.deliveries
      && Resolved(st.deliveries[st.jobs[j].payload.delivery.value].state)
  }

  ghost predicate StoreOk(st: Store) { Outbox.TableOk(st.jobs) && DeliveriesOk(st) && DoneIsResolved(st) }

  ghost predicate Inv(s: System) {
    StoreOk(s.store) && ThreadsOk(s) && OneSender(s) && SendsOk(s.store, s.sends)
  }

  // ---------------------------------------------------------------- framing

  lemma ThreadIsKept(st: Store, to: Store, sends: seq<Send>, pc: Pc)
    requires StoreStep(st, to) && ThreadOk(st, sends, pc)
    ensures ThreadOk(to, sends, pc)
  {
    if !pc.Idle? {
      assert JobStep(st.jobs[pc.job.id], to.jobs[pc.job.id]);
      if !pc.Claimed? && !pc.Failing? {
        assert DeliveryStep(st.deliveries[pc.id], to.deliveries[pc.id]);
        if pc.Sending? { ProofOfIsKept(st, to, pc.id, pc.proof); }
      }
    }
  }

  lemma ProofOfIsKept(st: Store, to: Store, id: Id, proof: Proofs.Proof)
    requires StoreStep(st, to) && IsProofOf(st, id, proof)
    ensures IsProofOf(to, id, proof) && DeliveryStep(st.deliveries[id], to.deliveries[id])
  {
    var p := st.deliveries[id].proof;
    assert DeliveryStep(st.deliveries[id], to.deliveries[id]);
    assert SameProof(st.proofs[p], to.proofs[p]);
  }

  lemma SendsAreKept(st: Store, to: Store, sends: seq<Send>)
    requires StoreStep(st, to) && SendsOk(st, sends)
    ensures SendsOk(to, sends)
  {
    forall i | 0 <= i < |sends|
      ensures IsProofOf(to, sends[i].id, sends[i].proof) && to.deliveries[sends[i].id].state != Pending
    {
      ProofOfIsKept(st, to, sends[i].id, sends[i].proof);
    }
  }

  // The common shape of a step: the store moves and one thread goes to `pc`.
  lemma MoveKeepsInv(s: System, to: Store, thread: Id, pc: Pc)
    requires Inv(s) && StoreStep(s.store, to) && StoreOk(to) && ThreadOk(to, s.sends, pc)
    requires pc.Sending? ==> forall u :: u in s.threads && s.threads[u].Sending? ==> s.threads[u].id != pc.id
    ensures Inv(Goto(s.(store := to), thread, pc))
  {
    var n := Goto(s.(store := to), thread, pc);
    SendsAreKept(s.store, to, s.sends);
    forall t | t in n.threads ensures ThreadOk(to, n.sends, n.threads[t]) {
      if t != thread { ThreadIsKept(s.store, to, s.sends, s.threads[t]); }
    }
  }

  lemma QuietMoveKeepsInv(s: System, to: Store)
    requires Inv(s) && StoreStep(s.store, to) && StoreOk(to)
    ensures Inv(s.(store := to))
  {
    SendsAreKept(s.store, to, s.sends);
    forall t | t in s.threads ensures ThreadOk(to, s.sends, s.threads[t]) {
      ThreadIsKept(s.store, to, s.sends, s.threads[t]);
    }
  }

  // ---------------------------------------------------------------- one row at a time

  lemma DeliveryMoveKeepsDeliveriesOk(st: Store, id: Id, d: Delivery)
    requires DeliveriesOk(st) && id in st.deliveries && DeliveryStep(st.deliveries[id], d)
    ensures DeliveriesOk(st.(deliveries := st.deliveries[id := d]))
  {
    var to := st.(deliveries := st.deliveries[id := d]);
    assert DeliveryOk(st.deliveries[id]) && DeliveryOk(d);
    forall x | x in to.deliveries
      ensures DeliveryOk(to.deliveries[x]) && to.deliveries[x].proof in to.proofs
      ensures exists j :: j in to.jobs && IsJobOf(to.jobs[j], x)
    {
      assert x in st.deliveries;
    }
  }

  lemma DeliveryMoveKeepsStoreOk(st: Store, id: Id, d: Delivery)
    requires StoreOk(st) && id in st.deliveries && DeliveryStep(st.deliveries[id], d)
    ensures var to := st.(deliveries := st.deliveries[id := d]);
            StoreOk(to) && StoreStep(st, to)
  {
    DeliveryMoveKeepsDeliveriesOk(st, id, d);
  }

  // A queue step may not acknowledge a proof job unless its delivery is resolved.
  lemma QueueMoveKeepsStoreOk(st: Store, e: Outbox.Event)
    requires StoreOk(st)
    requires forall j :: j in Outbox.Step(st.jobs, e) && j !in st.jobs ==> Outbox.Step(st.jobs, e)[j].kind != PROOF_KIND
    requires forall j :: j in st.jobs && st.jobs[j].kind == PROOF_KIND && Outbox.Step(st.jobs, e)[j].status.Done? ==>
               st.jobs[j].status.Done? ||
               (st.jobs[j].payload.delivery.Some? && st.jobs[j].payload.delivery.value in st.deliveries
                && Resolved(st.deliveries[st.jobs[j].payload.delivery.value].state))
    ensures var to := st.(jobs := Outbox.Step(st.jobs, e));
            StoreOk(to) && StoreStep(st, to)
  {
    var to := st.(jobs := Outbox.Step(st.jobs, e));
    Outbox.StepKeepsTableOk(st.jobs, e);
    forall j | j in st.jobs ensures JobStep(st.jobs[j], to.jobs[j]) {
      Outbox.RowSteps(st.jobs, e, j);
    }
    forall d | d in to.deliveries ensures exists j :: j in to.jobs && IsJobOf(to.jobs[j], d) {
      var j :| j in st.jobs && IsJobOf(st.jobs[j], d);
      assert JobStep(st.jobs[j], to.jobs[j]);
      assert IsJobOf(to.jobs[j], d);
    }
  }

  // Claims, dispatches and failures never make a job done; a foreign event never
  // touches a proof job beyond expiring it.
  lemma NotDone(jobs: Outbox.Table, e: Outbox.Event, j: Id)
    requires Outbox.TableOk(jobs) && j in jobs && jobs[j].kind == PROOF_KIND
    requires e.ClaimEvent? || (e.MoveEvent? && !e.move.Ack?) || (e.MoveEvent? && e.job.id != j) || Unrelated(jobs, e)
    ensures j in Outbox.Step(jobs, e) && (Outbox.Step(jobs, e)[j].status.Done? ==> jobs[j].status.Done?)
  {
    Outbox.RowSteps(jobs, e, j);
  }

  lemma PlainQueueMove(st: Store, e: Outbox.Event)
    requires StoreOk(st)
    requires e.ClaimEvent? || (e.MoveEvent? && !e.move.Ack?) || Unrelated(st.jobs, e)
    ensures var to := st.(jobs := Outbox.Step(st.jobs, e));
            StoreOk(to) && StoreStep(st, to)
  {
    Outbox.StepKeepsTableOk(st.jobs, e);
    forall j | j in st.jobs && st.jobs[j].kind == PROOF_KIND && Outbox.Step(st.jobs, e)[j].status.Done?
      ensures st.jobs[j].status.Done?
    {
      NotDone(st.jobs, e, j);
    }
    QueueMoveKeepsStoreOk(st, e);
  }

  lemma AckKeepsStoreOk(st: Store, job: Outbox.Job, id: Id, now: int)
    requires StoreOk(st) && Serves(st, job, id) && Resolved(st.deliveries[id].state)
    ensures var to := st.(jobs := Outbox.Transition(st.jobs, job, Outbox.Ack, now));
            StoreOk(to) && StoreStep(st, to)
  {
    var e := Outbox.MoveEvent(job, Outbox.Ack, now);
    Outbox.StepKeepsTableOk(st.jobs, e);
    forall j | j in st.jobs && st.jobs[j].kind == PROOF_KIND && Outbox.Step(st.jobs, e)[j].status.Done? && j != job.id
      ensures st.jobs[j].status.Done?
    {
      NotDone(st.jobs, e, j);
    }
    QueueMoveKeepsStoreOk(st, e);
  }

  lemma SweepKeepsStoreOk(st: Store, id: Id, now: int)
    requires StoreOk(st)
    ensures StoreOk(SweepOne(st, id, now)) && StoreStep(st, SweepOne(st, id, now))
  {
    if id in st.deliveries && st.deliveries[id].proof in st.proofs && SweepVerdict(st, id, now).Some? {
      var verdict := SweepVerdict(st, id, now).value;
      DeliveryMoveKeepsStoreOk(st, id, Close(st.deliveries[id], verdict.0, verdict.1));
    }
  }

  // ---------------------------------------------------------------- the steps of a thread

  lemma ClaimKeepsInv(s: System, e: Event)
    requires Inv(s) && e.Claim?
    ensures Inv(Step(s, e))
  {
    if PcOf(s, e.thread).Idle? {
      var oe := Outbox.ClaimEvent(e.worker, MINUTE, {PROOF_KIND}, e.locked, e.now);
      PlainQueueMove(s.store, oe);
      var (jobs, job) := Outbox.Claim(s.store.jobs, e.worker, MINUTE, {PROOF_KIND}, e.locked, e.now);
      if job.Some? {
        Outbox.ClaimGivesAFreshFence(s.store.jobs, e.worker, MINUTE, {PROOF_KIND}, e.locked, e.now);
        Outbox.RowSteps(s.store.jobs, oe, job.value.id);
        MoveKeepsInv(s, s.store.(jobs := jobs), e.thread, Claimed(job.value));
      } else {
        QuietMoveKeepsInv(s, s.store.(jobs := jobs));
      }
    }
  }

  lemma QueueDispatchKeepsInv(s: System, e: Event)
    requires Inv(s) && e.QueueDispatch?
    ensures Inv(Step(s, e))
  {
    var pc := PcOf(s, e.thread);
    if pc.Ready? {
      var to := s.store.(jobs := Outbox.Transition(s.store.jobs, pc.job, Outbox.Dispatch, e.now));
      PlainQueueMove(s.store, Outbox.MoveEvent(pc.job, Outbox.Dispatch, e.now));
      ThreadIsKept(s.store, to, s.sends, Delivering(pc.job, pc.id));
      MoveKeepsInv(s, to, e.thread, Delivering(pc.job, pc.id));
      MoveKeepsInv(s, s.store, e.thread, Idle);
    }
  }

  lemma BeginKeepsInv(s: System, e: Event)
    requires Inv(s) && e.Begin?
    ensures Inv(Step(s, e))
  {
    var pc := PcOf(s, e.thread);
    if pc.Delivering? {
      var (to, b) := DispatchBarrier(s.store, pc.id, e.w);
      match b
      case Refused => MoveKeepsInv(s, s.store, e.thread, Checking(pc.job, pc.id));
      case Inactive =>
        DeliveryMoveKeepsStoreOk(s.store, pc.id, to.deliveries[pc.id]);
        MoveKeepsInv(s, to, e.thread, Acking(pc.job, pc.id));
      case Opened(ciphertext, nonce, proof) =>
        DeliveryMoveKeepsStoreOk(s.store, pc.id, to.deliveries[pc.id]);
        NoOneSendsPending(s, pc.id);
        MoveKeepsInv(s, to, e.thread, Sending(pc.job, pc.id, proof, e.w));
        assert Step(s, e) == Goto(s.(store := to), e.thread, Sending(pc.job, pc.id, proof, e.w));
    }
  }

  // The thread before its send enters the sender, and no other was before that send.
  lemma SendKeepsInv(s: System, thread: Id, pc: Pc, outcome: State)
    requires Inv(s) && pc == PcOf(s, thread) && pc.Sending? && (outcome.Sent? || outcome.Failed? || outcome.Uncertain?)
    ensures var sends := s.sends + [Send(pc.id, pc.proof, pc.barrier)];
            Inv(Goto(s.(sends := sends), thread, Settling(pc.job, pc.id, outcome)))
  {
    var n := Goto(s.(sends := s.sends + [Send(pc.id, pc.proof, pc.barrier)]), thread,
        Settling(pc.job, pc.id, outcome));
    assert ThreadOk(s.store, s.sends, pc);
    forall t | t in n.threads ensures ThreadOk(n.store, n.sends, n.threads[t]) {
      if t != thread {
        assert ThreadOk(s.store, s.sends, s.threads[t]);
        if s.threads[t].Sending? { assert s.threads[t].id != pc.id; }
      }
    }
    forall i, j | 0 <= i < j < |n.sends| ensures n.sends[i].id != n.sends[j].id {
      if j == |s.sends| { assert !Sends(s.sends, pc.id); }
    }
  }

  lemma TransmitKeepsInv(s: System, e: Event)
    requires Inv(s) && e.Transmit?
    ensures Inv(Step(s, e))
  {
    var pc := PcOf(s, e.thread);
    if pc.Sending? {
      assert ThreadOk(s.store, s.sends, pc);
      if e.opens {
        SendKeepsInv(s, e.thread, pc, Normalize(e.answer));
      } else {
        MoveKeepsInv(s, s.store, e.thread, Settling(pc.job, pc.id, Failed));
      }
    }
  }

  lemma FinishKeepsInv(s: System, e: Event)
    requires Inv(s) && e.Finish?
    ensures Inv(Step(s, e))
  {
    var pc := PcOf(s, e.thread);
    if pc.Settling? {
      var (to, ok) := Settle(s.store, pc.id, pc.outcome, "", e.w);
      if ok {
        DeliveryMoveKeepsStoreOk(s.store, pc.id, to.deliveries[pc.id]);
        MoveKeepsInv(s, to, e.thread, if pc.outcome.Uncertain? then Failing(pc.job, true) else Acking(pc.job, pc.id));
      } else {
        MoveKeepsInv(s, to, e.thread, Checking(pc.job, pc.id));
      }
    }
  }

  lemma ReportKeepsInv(s: System, e: Event)
    requires Inv(s) && e.Report?
    ensures Inv(Step(s, e))
  {
    var pc := PcOf(s, e.thread);
    if pc.Acking? {
      AckKeepsStoreOk(s.store, pc.job, pc.id, e.now);
      MoveKeepsInv(s, s.store.(jobs := Outbox.Transition(s.store.jobs, pc.job, Outbox.Ack, e.now)), e.thread, Idle);
    } else if pc.Failing? {
      PlainQueueMove(s.store, Outbox.MoveEvent(pc.job, Outbox.Fail(pc.uncertain), e.now));
      MoveKeepsInv(s, s.store.(jobs := Outbox.Transition(s.store.jobs, pc.job, Outbox.Fail(pc.uncertain), e.now)),
          e.thread, Idle);
    }
  }

  lemma InspectKeepsInv(s: System, e: Event)
    requires Inv(s) && e.Inspect?
    ensures Inv(Step(s, e))
  {
    var pc := PcOf(s, e.thread);
    if pc.Claimed? {
      assert ThreadOk(s.store, s.sends, pc);
      MoveKeepsInv(s, s.store, e.thread, AfterInspection(s.store, pc.job, e.readable));
    }
  }

  lemma RecheckKeepsInv(s: System, e: Event)
    requires Inv(s) && e.Recheck?
    ensures Inv(Step(s, e))
  {
    var pc := PcOf(s, e.thread);
    if pc.Checking? {
      assert ThreadOk(s.store, s.sends, pc);
      if e.readable && pc.id in s.store.deliveries && Resolved(s.store.deliveries[pc.id].state) {
        MoveKeepsInv(s, s.store, e.thread, Acking(pc.job, pc.id));
      } else {
        MoveKeepsInv(s, s.store, e.thread, Failing(pc.job, true));
      }
    }
  }

  lemma CrashKeepsInv(s: System, e: Event)
    requires Inv(s) && e.Crash?
    ensures Inv(Step(s, e))
  {
    MoveKeepsInv(s, s.store, e.thread, Idle);
  }

  lemma NewProofKeepsDeliveriesOk(st: Store, to: Store, id: Id, jobId: Id)
    requires DeliveriesOk(st) && jobId in to.jobs && IsJobOf(to.jobs[jobId], id)
    requires jobId !in st.jobs && to.jobs == st.jobs[jobId := to.jobs[jobId]]
    requires id !in st.deliveries && id in to.deliveries && to.deliveries == st.deliveries[id := to.deliveries[id]]
    requires to.deliveries[id].state.Pending? && to.deliveries[id].proof in to.proofs
    requires st.proofs.Keys <= to.proofs.Keys
    ensures DeliveriesOk(to)
  {
    forall d | d in to.deliveries
      ensures DeliveryOk(to.deliveries[d]) && to.deliveries[d].proof in to.proofs
      ensures exists j :: j in to.jobs && IsJobOf(to.jobs[j], d)
    {
      if d == id {
        assert IsJobOf(to.jobs[jobId], d);
      } else {
        var j :| j in st.jobs && IsJobOf(st.jobs[j], d);
        assert to.jobs[j] == st.jobs[j];
      }
    }
  }

  lemma NewProofKeepsStoreOk(st: Store, to: Store, id: Id, jobId: Id)
    requires StoreOk(st) && Outbox.TableOk(to.jobs)
    requires jobId !in st.jobs && jobId in to.jobs && to.jobs == st.jobs[jobId := to.jobs[jobId]]
    requires IsJobOf(to.jobs[jobId], id) && to.jobs[jobId].status.Pending?
    requires id !in st.deliveries && id in to.deliveries && to.deliveries == st.deliveries[id := to.deliveries[id]]
    requires to.deliveries[id].state.Pending? && to.deliveries[id].proof in to.proofs
    requires forall p :: p in st.proofs ==> p in to.proofs && to.proofs[p] == st.proofs[p]
    ensures StoreOk(to) && StoreStep(st, to)
  {
    NewProofKeepsDeliveriesOk(st, to, id, jobId);
    NewProofIsNotDone(st, to, id, jobId);
  }

  lemma NewProofIsNotDone(st: Store, to: Store, id: Id, jobId: Id)
    requires DoneIsResolved(st) && id !in st.deliveries
    requires jobId !in st.jobs && jobId in to.jobs && to.jobs == st.jobs[jobId := to.jobs[jobId]]
    requires to.jobs[jobId].status.Pending? && id in to.deliveries
    requires to.deliveries == st.deliveries[id := to.deliveries[id]]
    ensures DoneIsResolved(to)
  {}

  lemma NewProofKeepsInv(s: System, e: Event)
    requires Inv(s) && e.NewProof?
    ensures Inv(Step(s, e))
  {
    var to := Step(s, e).store;
    if e.id in to.deliveries && e.id !in s.store.deliveries {
      var payload := Outbox.Payload(e.size, true, Some(e.id));
      Outbox.StepKeepsTableOk(s.store.jobs,
          Outbox.EnqueueEvent(e.jobId, PROOF_KIND, payload, Outbox.External, 1, e.now));
      NewProofKeepsStoreOk(s.store, to, e.id, e.jobId);
      QuietMoveKeepsInv(s, to);
    }
  }

  lemma SweepKeepsInv(s: System, e: Event)
    requires Inv(s) && e.Sweep?
    ensures Inv(Step(s, e))
  {
    SweepKeepsStoreOk(s.store, e.id, e.now);
    QuietMoveKeepsInv(s, SweepOne(s.store, e.id, e.now));
  }

  lemma MarkKeepsInv(s: System, e: Event)
    requires Inv(s) && e.Mark?
    ensures Inv(Step(s, e))
  {
    var (to, ok) := MarkUncertain(s.store, e.id, e.w);
    assert Step(s, e) == s.(store := to);
    if ok {
      DeliveryMoveKeepsStoreOk(s.store, e.id, to.deliveries[e.id]);
      QuietMoveKeepsInv(s, to);
    }
  }

  lemma ProofChangeKeepsInv(s: System, e: Event)
    requires Inv(s) && e.ProofChange?
    ensures Inv(Step(s, e))
  {
    if e.proofId in s.store.proofs {
      var p := s.store.proofs[e.proofId].(consumed := e.consumed, revoked := e.revoked, attempts := e.attempts);
      var to := s.store.(proofs := s.store.proofs[e.proofId := p]);
      assert SameProof(s.store.proofs[e.proofId], p);
      QuietMoveKeepsInv(s, to);
      assert Step(s, e) == s.(store := to);
    }
  }

  lemma OtherQueueKeepsInv(s: System, e: Event)
    requires Inv(s) && e.OtherQueue?
    ensures Inv(Step(s, e))
  {
    if Unrelated(s.store.jobs, e.e) {
      PlainQueueMove(s.store, e.e);
      QuietMoveKeepsInv(s, s.store.(jobs := Outbox.Step(s.store.jobs, e.e)));
    }
  }

  // Every step of every thread, sweep, request and foreign queue event keeps the invariant.
  lemma StepKeepsInv(s: System, e: Event)
    requires Inv(s)
    ensures Inv(Step(s, e))
  {
    match e
    case Claim(_, _, _, _) => ClaimKeepsInv(s, e);
    case QueueDispatch(_, _) => QueueDispatchKeepsInv(s, e);
    case Begin(_, _) => BeginKeepsInv(s, e);
    case Transmit(_, _, _) => TransmitKeepsInv(s, e);
    case Finish(_, _) => FinishKeepsInv(s, e);
    case Report(_, _) => ReportKeepsInv(s, e);
    case NewProof(_, _, _, _, _, _, _, _) => NewProofKeepsInv(s, e);
    case Inspect(_, _) => InspectKeepsInv(s, e);
    case Recheck(_, _) => RecheckKeepsInv(s, e);
    case Crash(_) => CrashKeepsInv(s, e);
    case Sweep(_, _) => SweepKeepsInv(s, e);
    case Mark(_, _) => MarkKeepsInv(s, e);
    case ProofChange(_, _, _, _) => ProofChangeKeepsInv(s, e);
    case OtherQueue(_) => OtherQueueKeepsInv(s, e);
  }

  lemma {:induction false} RunKeepsInv(s: System, es: seq<Event>)
    requires Inv(s)
    ensures Inv(Run(s, es))
    decreases es
  {
    if es != [] {
      StepKeepsInv(s, es[0]);
      RunKeepsInv(Step(s, es[0]), es[1..]);
    }
  }

  // ---------------------------------------------------------------- at most one message

  ghost function SendCount(sends: seq<Send>, id: Id): nat {
    if sends == [] then 0 else SendCount(sends[..|sends| - 1], id) + (if sends[|sends| - 1].id == id then 1 else 0)
  }

  lemma {:induction false} DistinctSendsCount(sends: seq<Send>, id: Id)
    requires forall i, j :: 0 <= i < j < |sends| ==> sends[i].id != sends[j].id
    ensures SendCount(sends, id) <= 1 && (SendCount(sends, id) == 1 ==> Sends(sends, id))
  {
    if sends != [] {
      var init := sends[..|sends| - 1];
      DistinctSendsCount(init, id);
      if SendCount(init, id) == 1 {
        var i :| 0 <= i < |init| && init[i].id == id;
        assert sends[i].id == id;
      } else if sends[|sends| - 1].id == id {
        assert sends[|sends| - 1].id == id;
      }
    }
  }

  // Over every interleaving the sender is entered at most once per delivery, and each
  // entry follows a barrier that saw that delivery's own proof live and found nothing
  // wrong with the session or organization it hangs from.
  lemma SentAtMostOnce(es: seq<Event>, id: Id)
    ensures var s := Run(INITIAL, es);
            && SendCount(s.sends, id) <= 1
            && (forall i :: 0 <= i < |s.sends| ==>
                  && IsProofOf(s.store, s.sends[i].id, s.sends[i].proof)
                  && var (proof, barrier) := (s.sends[i].proof, s.sends[i].barrier);
                  !proof.consumed && !proof.revoked && barrier.now < proof.expires
                  && (barrier.inactive ==> proof.session.None?))
  {
    RunKeepsInv(INITIAL, es);
    DistinctSendsCount(Run(INITIAL, es).sends, id);
  }

  // The barrier of a thread commits only on a pending delivery with a live proof.
  lemma BarrierNeedsPendingAndLive(s: System, thread: Id, w: World)
    requires Inv(s) && PcOf(s, thread).Delivering? && PcOf(Step(s, Begin(thread, w)), thread).Sending?
    ensures var id := PcOf(s, thread).id;
            var n := Step(s, Begin(thread, w));
            && id in s.store.deliveries && s.store.deliveries[id].state.Pending?
            && n.store.deliveries[id].state.Dispatched?
            && s.store.deliveries[id].proof in s.store.proofs
            && var proof := s.store.proofs[s.store.deliveries[id].proof];
            && !proof.consumed && !proof.revoked && w.now < proof.expires && (w.inactive ==> proof.session.None?)
            && PcOf(n, thread).proof == proof
            && n.sends == s.sends
  {
  }

  // Nothing can still send this delivery.
  ghost predicate Silent(s: System, id: Id) {
    && id in s.store.deliveries && s.store.deliveries[id].state != Pending
    && !Sends(s.sends, id)
    && forall t :: t in s.threads && s.threads[t].Sending? ==> s.threads[t].id != id
  }

  lemma BarrierMoves(st: Store, id: Id, w: World, d: Id)
    requires d in st.deliveries
    ensures var to := DispatchBarrier(st, id, w).0;
        d in to.deliveries && DeliveryStep(st.deliveries[d], to.deliveries[d])
  {}

  lemma SettleMoves(st: Store, id: Id, outcome: State, w: World, d: Id)
    requires d in st.deliveries && Settled(outcome)
    ensures var to := Settle(st, id, outcome, "", w).0;
        d in to.deliveries && DeliveryStep(st.deliveries[d], to.deliveries[d])
  {}

  lemma SweepMoves(st: Store, id: Id, now: int, d: Id)
    requires d in st.deliveries
    ensures var to := SweepOne(st, id, now); d in to.deliveries && DeliveryStep(st.deliveries[d], to.deliveries[d])
  {}

  lemma MarkMoves(st: Store, id: Id, w: World, d: Id)
    requires d in st.deliveries
    ensures var to := MarkUncertain(st, id, w).0; d in to.deliveries && DeliveryStep(st.deliveries[d], to.deliveries[d])
  {}

  lemma OthersMoveNone(s: System, e: Event, d: Id)
    requires d in s.store.deliveries && !(e.Begin? || e.Finish? || e.Sweep? || e.Mark?)
    ensures d in Step(s, e).store.deliveries && Step(s, e).store.deliveries[d] == s.store.deliveries[d]
  {}

  lemma DeliverySteps(s: System, e: Event, d: Id)
    requires Inv(s) && d in s.store.deliveries
    ensures d in Step(s, e).store.deliveries && DeliveryStep(s.store.deliveries[d], Step(s, e).store.deliveries[d])
  {
    if e.Begin? {
      var pc := PcOf(s, e.thread);
      if pc.Delivering? { BarrierMoves(s.store, pc.id, e.w, d); }
    } else if e.Finish? {
      var pc := PcOf(s, e.thread);
      if pc.Settling? {
        assert ThreadOk(s.store, s.sends, pc);
        SettleMoves(s.store, pc.id, pc.outcome, e.w, d);
      }
    } else if e.Sweep? {
      SweepMoves(s.store, e.id, e.now, d);
    } else if e.Mark? {
      MarkMoves(s.store, e.id, e.w, d);
    } else {
      OthersMoveNone(s, e, d);
    }
  }

  // The only new send is that of a thread that stood before it.
  lemma SendsGrow(s: System, e: Event, id: Id)
    requires Sends(Step(s, e).sends, id)
    ensures Sends(s.sends, id) || exists t :: t in s.threads && s.threads[t].Sending? && s.threads[t].id == id
  {
    var n := Step(s, e);
    var i: nat :| i < |n.sends| && n.sends[i].id == id;
    if i < |s.sends| {
      assert s.sends[i].id == id;
    } else {
      assert e.thread in s.threads && s.threads[e.thread].Sending?;
    }
  }

  // A thread gets before its send only through a delivery that was pending.
  lemma SendersSawPending(s: System, e: Event, t: Id)
    requires t in Step(s, e).threads && Step(s, e).threads[t].Sending?
    ensures var pc := Step(s, e).threads[t];
            || (t in s.threads && s.threads[t] == pc)
            || (pc.id in s.store.deliveries && s.store.deliveries[pc.id].state.Pending?)
  {}

  lemma SilenceIsKept(s: System, e: Event, id: Id)
    requires Inv(s) && Silent(s, id)
    ensures Silent(Step(s, e), id)
  {
    var n := Step(s, e);
    DeliverySteps(s, e, id);
    if Sends(n.sends, id) { SendsGrow(s, e, id); }
    forall t | t in n.threads && n.threads[t].Sending? ensures n.threads[t].id != id {
      SendersSawPending(s, e, t);
    }
  }

  lemma {:induction false} SilenceLasts(s: System, es: seq<Event>, id: Id)
    requires Inv(s) && Silent(s, id)
    ensures !Sends(Run(s, es).sends, id)
    decreases es
  {
    if es != [] {
      SilenceIsKept(s, es[0], id);
      StepKeepsInv(s, es[0]);
      SilenceLasts(Step(s, es[0]), es[1..], id);
    }
  }

  // A step that settles a pending delivery sends nothing and puts no thread before its send.
  lemma SettlingStepIsQuiet(s: System, e: Event, id: Id)
    requires id in s.store.deliveries && s.store.deliveries[id].state.Pending?
    requires id in Step(s, e).store.deliveries && Settled(Step(s, e).store.deliveries[id].state)
    ensures Step(s, e).sends == s.sends
    ensures forall t :: t in Step(s, e).threads && Step(s, e).threads[t].Sending? && Step(s, e).threads[t].id == id ==>
              t in s.threads && s.threads[t] == Step(s, e).threads[t]
  {
  }

  // A delivery that a sweep (or the barrier's cancellation) settles out of pending is never sent.
  lemma SettledFromPendingIsNeverSent(s: System, e: Event, id: Id, after: seq<Event>)
    requires Inv(s) && id in s.store.deliveries && s.store.deliveries[id].state.Pending?
    requires id in Step(s, e).store.deliveries && Settled(Step(s, e).store.deliveries[id].state)
    ensures !Sends(Run(Step(s, e), after).sends, id)
  {
    StepKeepsInv(s, e);
    SettlingStepIsQuiet(s, e, id);
    NoOneSendsPending(s, id);
    SilenceLasts(Step(s, e), after, id);
  }

  lemma NoOneSendsPending(s: System, id: Id)
    requires Inv(s) && id in s.store.deliveries && s.store.deliveries[id].state.Pending?
    ensures !Sends(s.sends, id)
    ensures forall t :: t in s.threads && s.threads[t].Sending? ==> s.threads[t].id != id
  {
    forall t | t in s.threads && s.threads[t].Sending? ensures s.threads[t].id != id {
      assert ThreadOk(s.store, s.sends, s.threads[t]);
    }
  }

  // ---------------------------------------------------------------- sent means sent

  ghost predicate Truthful(s: System) {
    && (forall d :: d in s.store.deliveries && s.store.deliveries[d].state.Sent? ==> Sends(s.sends, d))
    && (forall t :: t in s.threads && s.threads[t].Settling? && s.threads[t].outcome.Sent? ==>
        Sends(s.sends, s.threads[t].id))
  }

  lemma SendsStay(s: System, e: Event, id: Id)
    requires Sends(s.sends, id)
    ensures Sends(Step(s, e).sends, id)
  {
    var i: nat :| i < |s.sends| && s.sends[i].id == id;
    assert Step(s, e).sends[i].id == id;
  }

  lemma TransmitSends(s: System, e: Event)
    requires e.Transmit? && e.opens && PcOf(s, e.thread).Sending?
    ensures Sends(Step(s, e).sends, PcOf(s, e.thread).id)
  {
    assert Step(s, e).sends[|s.sends|].id == PcOf(s, e.thread).id;
  }

  // A delivery becomes sent, or a thread comes to report it sent, only through a send.
  lemma SentComesFromASend(s: System, e: Event, d: Id)
    requires Truthful(s) && d in Step(s, e).store.deliveries && Step(s, e).store.deliveries[d].state.Sent?
    ensures Sends(s.sends, d)
  {
    if e.Finish? && PcOf(s, e.thread).Settling? { assert e.thread in s.threads; }
  }

  lemma ReportComesFromASend(s: System, e: Event, t: Id)
    requires Truthful(s) && t in Step(s, e).threads && Step(s, e).threads[t].Settling?
    requires Step(s, e).threads[t].outcome.Sent?
    ensures Sends(Step(s, e).sends, Step(s, e).threads[t].id)
  {
    if t in s.threads && Step(s, e).threads[t] == s.threads[t] {
      SendsStay(s, e, s.threads[t].id);
    } else {
      TransmitSends(s, e);
    }
  }

  lemma StepKeepsTruthful(s: System, e: Event)
    requires Truthful(s)
    ensures Truthful(Step(s, e))
  {
    var n := Step(s, e);
    forall d | d in n.store.deliveries && n.store.deliveries[d].state.Sent? ensures Sends(n.sends, d) {
      SentComesFromASend(s, e, d);
      SendsStay(s, e, d);
    }
    forall t | t in n.threads && n.threads[t].Settling? && n.threads[t].outcome.Sent?
        ensures Sends(n.sends, n.threads[t].id) {
      ReportComesFromASend(s, e, t);
    }
  }

  // A delivery is recorded as sent only if the sender was entered for it.
  lemma {:induction false} SentWasTransmitted(s: System, es: seq<Event>, id: Id)
    requires Truthful(s) && id in Run(s, es).store.deliveries && Run(s, es).store.deliveries[id].state.Sent?
    ensures Sends(Run(s, es).sends, id)
    decreases es
  {
    if es != [] {
      StepKeepsTruthful(s, es[0]);
      SentWasTransmitted(Step(s, es[0]), es[1..], id);
    }
  }

  // ---------------------------------------------------------------- settled is final, done is resolved

  lemma {:induction false} SettledIsFinal(s: System, es: seq<Event>, id: Id)
    requires Inv(s) && id in s.store.deliveries && Settled(s.store.deliveries[id].state)
    ensures id in Run(s, es).store.deliveries && Run(s, es).store.deliveries[id] == s.store.deliveries[id]
    ensures s.store.deliveries[id].ciphertext == "" && s.store.deliveries[id].nonce == ""
    decreases es
  {
    assert DeliveryOk(s.store.deliveries[id]);
    if es != [] {
      DeliverySteps(s, es[0], id);
      StepKeepsInv(s, es[0]);
      SettledIsFinal(Step(s, es[0]), es[1..], id);
    }
  }

  lemma DoneMeansResolved(es: seq<Event>, j: Id)
    requires var jobs := Run(INITIAL, es).store.jobs; j in jobs && jobs[j].kind == PROOF_KIND && jobs[j].status.Done?
    ensures var st := Run(INITIAL, es).store;
            && st.jobs[j].payload.delivery.Some?
            && var id := st.jobs[j].payload.delivery.value;
            && id in st.deliveries && Resolved(st.deliveries[id].state)
            && st.deliveries[id].ciphertext == "" && st.deliveries[id].nonce == ""
  {
    RunKeepsInv(INITIAL, es);
    var st := Run(INITIAL, es).store;
    assert DeliveryOk(st.deliveries[st.jobs[j].payload.delivery.value]);
  }

  // ---------------------------------------------------------------- nothing is stranded

  predicate ReadyLater(row: Outbox.Row) { row.status.Pending? && row.attempt < row.maxAttempts }

  // Past the leases of its jobs and the dispatch minute, a delivery that is not settled either has
  // its job still pending, or one expiry pass and one sweep settle it.
  lemma NothingIsStranded(es: seq<Event>, id: Id, now: int)
    requires var st := Run(INITIAL, es).store;
             && id in st.deliveries && !Settled(st.deliveries[id].state)
             && (st.deliveries[id].dispatchedAt.Some? ==> st.deliveries[id].dispatchedAt.value < now - MINUTE)
             && (forall j :: j in st.jobs && JobFor(st.jobs[j], id) && Outbox.InFlight(st.jobs[j]) ==>
                   Outbox.Expired(st.jobs[j], now))
    ensures var st := Run(INITIAL, es).store;
            || (exists j :: j in st.jobs && JobFor(st.jobs[j], id) && ReadyLater(st.jobs[j]))
            || Settled(SweepOne(st.(jobs := Outbox.Expire(st.jobs, now)), id, now).deliveries[id].state)
  {
    RunKeepsInv(INITIAL, es);
    StrandedIsSettled(Run(INITIAL, es).store, id, now);
  }

  lemma StrandedIsSettled(st: Store, id: Id, now: int)
    requires StoreOk(st) && id in st.deliveries && !Settled(st.deliveries[id].state)
    requires st.deliveries[id].dispatchedAt.Some? ==> st.deliveries[id].dispatchedAt.value < now - MINUTE
    requires forall j :: j in st.jobs && JobFor(st.jobs[j], id) && Outbox.InFlight(st.jobs[j]) ==>
               Outbox.Expired(st.jobs[j], now)
    ensures || (exists j :: j in st.jobs && JobFor(st.jobs[j], id) && ReadyLater(st.jobs[j]))
            || Settled(SweepOne(st.(jobs := Outbox.Expire(st.jobs, now)), id, now).deliveries[id].state)
  {
    assert DeliveryOk(st.deliveries[id]);
    var j :| j in st.jobs && IsJobOf(st.jobs[j], id);
    assert Outbox.RowOk(st.jobs[j]);
    var expired := Outbox.Expire(st.jobs, now);
    assert JobFor(expired[j], id);
    assert !st.jobs[j].status.Done?;
  }

  // ---------------------------------------------------------------- a message goes out

  // The worker's part in one delivery: everything it does to a job, with no failure of the
  // guard, the audit or a read.
  function Errand(
      thread: Id, worker: Id, locked: set<Id>, t: int, u: int, w: World, opens: bool, answer: State, f: World, x: int)
    : seq<Event>
  {
    [Claim(thread, worker, locked, t), Inspect(thread, true), QueueDispatch(thread, u)]
    + [Begin(thread, w), Transmit(thread, opens, answer), Finish(thread, f)] + [Report(thread, x)]
  }

  lemma {:induction false} RunSplits(s: System, a: seq<Event>, b: seq<Event>)
    ensures Run(s, a + b) == Run(Run(s, a), b)
    decreases a
  {
    if a == [] {
      assert a + b == b;
    } else {
      assert (a + b)[1..] == a[1..] + b;
      RunSplits(Step(s, a[0]), a[1..], b);
    }
  }

  lemma RunOfThree(s: System, a: Event, b: Event, c: Event)
    ensures Run(s, [a, b, c]) == Step(Step(Step(s, a), b), c)
  {
    RunSplits(s, [a], [b, c]);
    RunSplits(Step(s, a), [b], [c]);
    assert [a] + [b, c] == [a, b, c] && [b] + [c] == [b, c];
    RunOfOne(s, a);
    RunOfOne(Step(s, a), b);
    RunOfOne(Step(Step(s, a), b), c);
  }

  lemma RunOfOne(s: System, a: Event)
    ensures Run(s, [a]) == Step(s, a)
  {
    assert [a][1..] == [];
  }

  // The job is due, the only one not held by others, and names this pending delivery.
  ghost predicate InTurn(s: System, thread: Id, j: Id, id: Id, locked: set<Id>, t: int) {
    && Outbox.TableOk(s.store.jobs) && PcOf(s, thread).Idle?
    && j in s.store.jobs && j !in locked && (forall k :: k in s.store.jobs && k != j ==> k in locked)
    && var row := s.store.jobs[j];
    && row.kind == "identity.proof_delivery" && row.payload.delivery == Some(id) && row.effect.External?
    && row.status.Pending? && row.availableAt <= t
    && id != 0 && id in s.store.deliveries && s.store.deliveries[id].state.Pending?
    && s.store.deliveries[id].proof in s.store.proofs
  }

  // The thread holds the job, dispatched, until a minute after t.
  ghost predicate HoldsDispatched(s: System, thread: Id, j: Id, id: Id, job: Outbox.Job, t: int) {
    && PcOf(s, thread) == Delivering(job, id) && HoldsLease(s.store.jobs, j, job, t)
    && s.store.jobs[j].status.Dispatched?
  }

  ghost predicate HoldsLease(jobs: Outbox.Table, j: Id, job: Outbox.Job, t: int) {
    && j != 0 && job.id == j && job.worker != 0 && j in jobs && jobs[j].worker == job.worker
    && jobs[j].fence == job.fence && jobs[j].leaseUntil == Some(t + 60_000_000_000)
  }

  lemma ClaimGetsTheJob(s: System, thread: Id, j: Id, id: Id, worker: Id, locked: set<Id>, t: int)
    returns (job: Outbox.Job)
    requires InTurn(s, thread, j, id, locked, t) && worker != 0
    ensures var n := Step(s, Claim(thread, worker, locked, t));
            && PcOf(n, thread) == Claimed(job) && HoldsLease(n.store.jobs, j, job, t)
            && n.store.jobs[j].status.Leased? && job.effect.External? && job.payload.delivery == Some(id)
            && n.sends == s.sends && n.store.deliveries == s.store.deliveries && n.store.proofs == s.store.proofs
  {
    var (st, kinds) := (s.store.jobs, {PROOF_KIND});
    assert Outbox.RowOk(st[j]) && j != 0;
    Outbox.ClaimTakesAReadyJob(st, worker, MINUTE, kinds, locked, t);
    Outbox.ClaimInColumns(st, worker, MINUTE, kinds, locked, t);
    Outbox.ClaimGivesAFreshFence(st, worker, MINUTE, kinds, locked, t);
    job := Outbox.Claim(st, worker, MINUTE, kinds, locked, t).1.value;
    assert job.id == j;
  }

  lemma JobIsDispatched(s: System, thread: Id, j: Id, id: Id, worker: Id, locked: set<Id>, t: int, u: int)
    returns (job: Outbox.Job)
    requires InTurn(s, thread, j, id, locked, t) && worker != 0 && u < t + 60_000_000_000
    ensures var n := Run(s, [Claim(thread, worker, locked, t), Inspect(thread, true), QueueDispatch(thread, u)]);
            && HoldsDispatched(n, thread, j, id, job, t)
            && n.sends == s.sends && n.store.deliveries == s.store.deliveries && n.store.proofs == s.store.proofs
  {
    RunOfThree(s, Claim(thread, worker, locked, t), Inspect(thread, true), QueueDispatch(thread, u));
    job := ClaimGetsTheJob(s, thread, j, id, worker, locked, t);
    var a := Step(s, Claim(thread, worker, locked, t));
    var b := Step(a, Inspect(thread, true));
    assert PcOf(b, thread) == Ready(job, id) && b.store == a.store;
    Outbox.MoveInColumns(b.store.jobs, job, Outbox.Dispatch, u);
  }

  // What becomes of the message.
  function Fate(proof: Proofs.Proof, w: World, opens: bool, answer: State): State {
    if proof.consumed || proof.revoked || proof.expires <= w.now || (w.inactive && proof.session.Some?) then Cancelled
    else if !opens then Failed
    else if answer == Sent || answer == Failed then answer
    else Uncertain
  }

  lemma MessageIsSettled(
      s: System, thread: Id, j: Id, id: Id, job: Outbox.Job, t: int, w: World, opens: bool, answer: State, f: World)
    requires HoldsDispatched(s, thread, j, id, job, t)
    requires id in s.store.deliveries && s.store.deliveries[id].state.Pending?
    requires s.store.deliveries[id].proof in s.store.proofs
    requires w.guardOk && w.auditOk && f.guardOk && f.auditOk
    ensures var n := Run(s, [Begin(thread, w), Transmit(thread, opens, answer), Finish(thread, f)]);
            var proof := s.store.proofs[s.store.deliveries[id].proof];
            var fate := Fate(proof, w, opens, answer);
            && PcOf(n, thread) == (if fate == Uncertain then Failing(job, true) else Acking(job, id))
            && n.store.jobs == s.store.jobs && IsErased(n, id, fate)
            && n.sends == s.sends + (if fate != Cancelled && opens then [Send(id, proof, w)] else [])
  {
    RunOfThree(s, Begin(thread, w), Transmit(thread, opens, answer), Finish(thread, f));
    BarrierInColumns(s.store, id, w);
    var a := Step(s, Begin(thread, w));
    var b := Step(a, Transmit(thread, opens, answer));
    if PcOf(b, thread).Settling? { SettleInColumns(b.store, id, PcOf(b, thread).outcome, "", f); }
  }

  ghost predicate IsErased(s: System, id: Id, state: State) {
    && id in s.store.deliveries && s.store.deliveries[id].state == state
    && s.store.deliveries[id].ciphertext == "" && s.store.deliveries[id].nonce == ""
  }

  lemma JobIsSettled(s: System, thread: Id, j: Id, id: Id, job: Outbox.Job, t: int, x: int)
    requires PcOf(s, thread) == Failing(job, true) || PcOf(s, thread) == Acking(job, id)
    requires HoldsLease(s.store.jobs, j, job, t) && s.store.jobs[j].status.Dispatched? && x < t + 60_000_000_000
    ensures var n := Step(s, Report(thread, x));
            && n.sends == s.sends && n.store.deliveries == s.store.deliveries && j in n.store.jobs
            && (if PcOf(s, thread).Acking?
                then n.store.jobs[j].status == Outbox.Done && n.store.jobs[j].outcome == Outbox.Completed
                else n.store.jobs[j].status == Outbox.Uncertain)
  {
    Outbox.MoveInColumns(s.store.jobs, job, Outbox.Ack, x);
    Outbox.MoveInColumns(s.store.jobs, job, Outbox.Fail(true), x);
  }

  // A job in turn is carried out: within its lease the message is cancelled, sent, or left
  // failed or uncertain as the sender answers; the stored text is erased, and the job is
  // done unless nobody knows.
  lemma JobInTurnIsCarriedOut(
      s: System, thread: Id, j: Id, id: Id, worker: Id, locked: set<Id>, t: int, u: int, w: World, opens: bool,
      answer: State, f: World, x: int)
    requires InTurn(s, thread, j, id, locked, t) && worker != 0
    requires u < t + 60_000_000_000 && x < t + 60_000_000_000 && w.guardOk && w.auditOk && f.guardOk && f.auditOk
    ensures var n := Run(s, Errand(thread, worker, locked, t, u, w, opens, answer, f, x));
            var proof := s.store.proofs[s.store.deliveries[id].proof];
            var fate := Fate(proof, w, opens, answer);
            && IsErased(n, id, fate) && j in n.store.jobs
            && n.store.jobs[j].status == (if fate == Uncertain then Outbox.Uncertain else Outbox.Done)
            && n.sends == s.sends + (if fate != Cancelled && opens then [Send(id, proof, w)] else [])
  {
    var first := [Claim(thread, worker, locked, t), Inspect(thread, true), QueueDispatch(thread, u)];
    var second := [Begin(thread, w), Transmit(thread, opens, answer), Finish(thread, f)];
    RunSplits(s, first + second, [Report(thread, x)]);
    RunSplits(s, first, second);
    var job := JobIsDispatched(s, thread, j, id, worker, locked, t, u);
    var a := Run(s, first);
    MessageIsSettled(a, thread, j, id, job, t, w, opens, answer, f);
    var b := Run(a, second);
    JobIsSettled(b, thread, j, id, job, t, x);
    RunOfOne(b, Report(thread, x));
  }
}
