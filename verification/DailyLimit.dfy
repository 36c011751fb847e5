/**
The daily limit on images. It holds for handlers that are serialised by the user lock and do not stop while a receipt
they created is uncharged or about to be refused; each of these conditions is needed.
*/
module DailyLimit {
  import opened Domain
  import opened WebhookRuns

  /** Inside the user lock. */
  predicate Busy(p: Progress) {
    !p.Claimed? && !p.Ended?
  }

  /** The receipt for which a lane still owes a charge, its removal or its refusal. */
  function Owed(p: Progress): Option<ReceiptId> {
    if p.Refusing? then Some(p.receipt) else Owned(p)
  }

  ghost predicate Orderly(s: State, step: Step, limit: nat)
    requires Enabled(s, step)
  {
    && (step.Charge? ==> step.limit == limit)
    && (step.Insert? ==> LockFree(s, step.lane))
    && (step.Crash? || step.Fail? ==> Owed(s.lanes[step.lane].at).None?)
    // only the handler moves a receipt from received to queued
    && (step.Move? ==> !(step.status == Queued && InStatus(s, step.receipt, Received)))
  }

  ghost predicate LockFree(s: State, lane: Lane)
    requires lane in s.lanes
  {
    forall l :: l in s.lanes && l != lane && s.lanes[l].user == s.lanes[lane].user ==> !Busy(s.lanes[l].at)
  }

  ghost predicate OrderlyRun(s: State, steps: seq<Step>, limit: nat)
    requires ValidRun(s, steps)
    decreases steps
  {
    steps == [] || (Orderly(s, steps[0], limit) && OrderlyRun(Apply(s, steps[0]), steps[1..], limit))
  }

  /** The messages with a job whose image was charged to a counter. */
  ghost function JobsChargedTo(s: State, k: Counter): set<MsgId> {
    set j | j in s.jobs && s.jobs[j].dedupe in s.chargedTo && s.chargedTo[s.jobs[j].dedupe] == k :: s.jobs[j].dedupe
  }

  // ---------------------------------------------------------------- what an orderly run keeps

  /** The admitted messages of a counter. */
  ghost function AdmittedTo(to: map<MsgId, Counter>, admitted: set<MsgId>, k: Counter): set<MsgId> {
    set id | id in admitted && id in to && to[id] == k
  }

  ghost predicate Serial(s: State) {
    forall l, m :: l in s.lanes && m in s.lanes && Busy(s.lanes[l].at) && Busy(s.lanes[m].at)
                   && s.lanes[l].user == s.lanes[m].user
                   ==> l == m
  }

  ghost predicate CountsOk(s: State, limit: nat, admitted: set<MsgId>) {
    && (forall id :: id in admitted ==> s.charges[id] == 1 && id in s.chargedTo)
    && (forall k ::
          && |AdmittedTo(s.chargedTo, admitted, k)| <= limit
          && |AdmittedTo(s.chargedTo, admitted, k)| <= Count(s.usage, k))
  }

  predicate Closed(status: ReceiptStatus) {
    status == FailedPermanent || status == Deleted
  }

  /** A lane on its way to a job. */
  predicate WillQueue(p: Progress) {
    match p
    case Loaded(mine, _, status) => !mine && (status == Received || status == Queued)
    case Admitted(_, status) => status == Received || status == Queued
    case Queueing(_) => true
    case _ => false
  }

  ghost predicate OwedBy(s: State, r: ReceiptId) {
    exists l :: l in s.lanes && Owed(s.lanes[l].at) == Some(r)
  }

  ghost predicate ReceiptIn(s: State, admitted: set<MsgId>, r: ReceiptId)
    requires r in s.receipts
  {
    || Closed(s.receipts[r].status)
    || s.receipts[r].msg in admitted
    || (s.receipts[r].status == Received && OwedBy(s, r))
  }

  ghost predicate LimitInv(s: State, limit: nat, admitted: set<MsgId>) {
    && Serial(s) && CountsOk(s, limit, admitted)
    && (forall r :: r in s.receipts ==> ReceiptIn(s, admitted, r))
    && (forall l :: l in s.lanes && WillQueue(s.lanes[l].at) ==> s.lanes[l].id in admitted)
    && (forall j :: j in s.jobs ==> s.jobs[j].dedupe in admitted)
  }

  /** The charge that a step admits. */
  ghost function Next(s: State, step: Step, admitted: set<MsgId>): set<MsgId>
    requires Enabled(s, step)
  {
    if Charges(s, step) && After(s, step).Admitted? then admitted + {s.lanes[step.lane].id} else admitted
  }

  lemma SerialKeeps(s: State, step: Step, limit: nat)
    requires Serial(s) && Enabled(s, step) && Orderly(s, step, limit)
    ensures Serial(Apply(s, step))
  {
    hide NextMsgs, NextReceipts, NextCharges, NextChargedTo, NextUsage, NextJobs, NextAcks, Claimable, HasReceipt,
      HasJob, HasAck, ReceiptCanMove, InStatus;
  }

  lemma OneMore(to: map<MsgId, Counter>, admitted: set<MsgId>, id: MsgId, here: Counter, k: Counter)
    requires id !in admitted
    ensures AdmittedTo(to[id := here], admitted, k) == AdmittedTo(to, admitted, k)
    ensures |AdmittedTo(to[id := here], admitted + {id}, k)|
            == |AdmittedTo(to, admitted, k)| + if k == here then 1 else 0
  {
    if k == here {
      assert AdmittedTo(to[id := here], admitted + {id}, k) == AdmittedTo(to, admitted, k) + {id};
    } else {
      assert AdmittedTo(to[id := here], admitted + {id}, k) == AdmittedTo(to, admitted, k);
    }
  }

  lemma ChargeCountsUp(s: State, step: Step, limit: nat, admitted: set<MsgId>)
    requires limit > 0 && LanesOk(s) && CountsOk(s, limit, admitted) && Enabled(s, step) && Charges(s, step)
    requires step.limit == limit
    ensures CountsOk(Apply(s, step), limit, Next(s, step, admitted))
  {
    hide NextMsgs, NextReceipts, NextJobs, NextAcks, NextLanes, HolderOk, HasReceipt, AdmittedTo, ReceiptCanMove;
    var s', d := Apply(s, step), s.lanes[step.lane];
    assert OwnerOk(s, step.lane) && d.id !in admitted;
    forall k
      ensures |AdmittedTo(s'.chargedTo, Next(s, step, admitted), k)| <= limit
      ensures |AdmittedTo(s'.chargedTo, Next(s, step, admitted), k)| <= Count(s'.usage, k)
    {
      OneMore(s.chargedTo, admitted, d.id, Counter(d.user, step.day), k);
    }
  }

  lemma CountsKeep(s: State, step: Step, limit: nat, admitted: set<MsgId>)
    requires limit > 0 && Inv(s) && CountsOk(s, limit, admitted) && Enabled(s, step) && Orderly(s, step, limit)
    ensures CountsOk(Apply(s, step), limit, Next(s, step, admitted))
  {
    hide NextMsgs, NextReceipts, NextJobs, NextAcks, NextLanes, LanesOk, Enabled, AdmittedTo;
    if Charges(s, step) { ChargeCountsUp(s, step, limit, admitted); }
  }

  lemma OwedStays(s: State, step: Step, limit: nat, r: ReceiptId)
    requires Inv(s) && Enabled(s, step) && Orderly(s, step, limit) && OwedBy(s, r)
    requires r in s.receipts && s.receipts[r].status == Received
    requires r in Apply(s, step).receipts && Apply(s, step).receipts[r].status == Received
    ensures || OwedBy(Apply(s, step), r)
            || (Charges(s, step) && After(s, step).Admitted? && s.receipts[r].msg == s.lanes[step.lane].id)
  {
    hide Apply, IdsOk, ChargesOk, JobsOk;
    var l :| l in s.lanes && Owed(s.lanes[l].at) == Some(r);
    assert OwnerOk(s, l) && HolderOk(s, l);
    OwedMoves(s, step, limit, l, r);
  }

  lemma OwedMoves(s: State, step: Step, limit: nat, l: Lane, r: ReceiptId)
    requires ReceiptsOk(s) && Enabled(s, step) && Orderly(s, step, limit) && l in s.lanes
    requires Owed(s.lanes[l].at) == Some(r)
    requires OwnerOk(s, l) && HolderOk(s, l)
    requires r in s.receipts && s.receipts[r].status == Received
    requires r in Apply(s, step).receipts && Apply(s, step).receipts[r].status == Received
    ensures (l in Apply(s, step).lanes && Owed(Apply(s, step).lanes[l].at) == Some(r))
            || (Charges(s, step) && After(s, step).Admitted? && s.receipts[r].msg == s.lanes[step.lane].id)
  {
    hide NextMsgs, NextCharges, NextChargedTo, NextUsage, NextJobs, NextAcks, Claimable, ReceiptCanMove;
    if step.Load? && step.lane == l { assert HasReceipt(s, s.lanes[l].id); }
  }

  lemma ReceiptKeeps(s: State, step: Step, limit: nat, admitted: set<MsgId>, r: ReceiptId)
    requires Inv(s) && LimitInv(s, limit, admitted) && Enabled(s, step) && Orderly(s, step, limit)
    requires r in Apply(s, step).receipts
    ensures ReceiptIn(Apply(s, step), Next(s, step, admitted), r)
  {
    hide Apply, IdsOk, ChargesOk, JobsOk, CountsOk, Serial, OwedBy, OwnerOk;
    var s' := Apply(s, step);
    ReceiptIsOld(s, step, r);
    if r !in s.receipts {
      NewIsOwed(s, step);
    } else {
      ReceiptStays(s, step, r);
      assert ReceiptIn(s, admitted, r);
      if s.receipts[r].status == Received && s'.receipts[r].status == Received {
        if OwedBy(s, r) { OwedStays(s, step, limit, r); }
      } else {
        StatusMoves(s, step, limit, r);
        if step.Queue? { assert HolderOk(s, step.lane); }
      }
    }
  }

  lemma NewIsOwed(s: State, step: Step)
    requires Enabled(s, step) && step.Insert? && step.newId in Apply(s, step).receipts && step.newId !in s.receipts
    ensures OwedBy(Apply(s, step), step.newId) && Apply(s, step).receipts[step.newId].status == Received
  {
    hide NextMsgs, NextCharges, NextChargedTo, NextUsage, NextJobs, NextAcks, HasReceipt;
    assert Owed(Apply(s, step).lanes[step.lane].at) == Some(step.newId);
  }

  /** How a status changes: along the table by others, or from received by the lane that holds the receipt. */
  lemma StatusMoves(s: State, step: Step, limit: nat, r: ReceiptId)
    requires ReceiptsOk(s) && Enabled(s, step) && Orderly(s, step, limit)
    requires r in s.receipts && r in Apply(s, step).receipts
    requires s.receipts[r].status != Received || Apply(s, step).receipts[r].status != Received
    ensures var from, to := s.receipts[r].status, Apply(s, step).receipts[r].status;
            || Closed(to)
            || (!Closed(from) && from != Received)
            || (step.Queue? && WillQueue(s.lanes[step.lane].at) && Held(s.lanes[step.lane].at) == Some(r))
  {
    hide NextMsgs, NextCharges, NextChargedTo, NextUsage, NextJobs, NextAcks, NextLanes, After, HasReceipt;
  }

  lemma LaneKeeps(s: State, step: Step, limit: nat, admitted: set<MsgId>, l: Lane)
    requires Inv(s) && LimitInv(s, limit, admitted) && Enabled(s, step) && Orderly(s, step, limit)
    requires l in Apply(s, step).lanes && WillQueue(Apply(s, step).lanes[l].at)
    ensures Apply(s, step).lanes[l].id in Next(s, step, admitted)
  {
    hide Apply, IdsOk, ChargesOk, JobsOk, CountsOk, ReceiptIn, Serial, OwnerOk, HolderOk;
    if !Moves(step, l) {
      Unmoved(s, step, l);
    } else {
      WillQueueMoves(s, step);
      if step.Load? { LoadedIsAdmitted(s, step, limit, admitted); }
    }
  }

  lemma WillQueueMoves(s: State, step: Step)
    requires Enabled(s, step) && !step.Move? && !step.OtherCharge?
    requires step.lane in Apply(s, step).lanes && WillQueue(Apply(s, step).lanes[step.lane].at)
    ensures step.lane in s.lanes && Apply(s, step).lanes[step.lane].id == s.lanes[step.lane].id
    ensures || WillQueue(s.lanes[step.lane].at)
            || (Charges(s, step) && After(s, step).Admitted?)
            || (step.Load? && !s.lanes[step.lane].at.mine && step.found.Some?
                && s.receipts[step.found.value].user == s.lanes[step.lane].user
                && s.receipts[step.found.value].status in {Received, Queued})
  {
    hide NextMsgs, NextReceipts, NextCharges, NextChargedTo, NextUsage, NextJobs, NextAcks, HasReceipt, ReceiptCanMove;
  }

  /** What another lane loads as received or queued was admitted: whoever still owed it would hold the lock. */
  lemma LoadedIsAdmitted(s: State, step: Step, limit: nat, admitted: set<MsgId>)
    requires LanesOk(s) && LimitInv(s, limit, admitted) && Enabled(s, step) && step.Load? && step.found.Some?
    ensures !s.lanes[step.lane].at.mine && s.receipts[step.found.value].user == s.lanes[step.lane].user
            && s.receipts[step.found.value].status in {Received, Queued}
            ==> s.lanes[step.lane].id in admitted
  {
    var r := step.found.value;
    assert ReceiptIn(s, admitted, r);
    forall m | m in s.lanes && Owed(s.lanes[m].at) == Some(r)
      ensures Busy(s.lanes[m].at) && s.receipts[r].user == s.lanes[m].user
    {
      OwedIsBusy(s, m, r);
    }
  }

  lemma OwedIsBusy(s: State, m: Lane, r: ReceiptId)
    requires LanesOk(s) && m in s.lanes && Owed(s.lanes[m].at) == Some(r) && r in s.receipts
    ensures Busy(s.lanes[m].at) && s.receipts[r].user == s.lanes[m].user
  {
    assert OwnerOk(s, m) && HolderOk(s, m);
  }

  lemma JobKeeps(s: State, step: Step, limit: nat, admitted: set<MsgId>, j: JobId)
    requires LimitInv(s, limit, admitted) && Enabled(s, step) && j in Apply(s, step).jobs
    ensures Apply(s, step).jobs[j].dedupe in admitted
  {
    hide NextMsgs, NextReceipts, NextCharges, NextChargedTo, NextUsage, NextLanes, NextAcks, HasJob, ReceiptIn,
      CountsOk, Serial, After;
  }

  lemma LimitKeeps(s: State, step: Step, limit: nat, admitted: set<MsgId>)
    requires limit > 0 && Inv(s) && LimitInv(s, limit, admitted) && Enabled(s, step) && Orderly(s, step, limit)
    ensures LimitInv(Apply(s, step), limit, Next(s, step, admitted))
  {
    hide Apply, Enabled, Orderly, Inv, CountsOk, Serial, ReceiptIn, WillQueue;
    var s', admitted' := Apply(s, step), Next(s, step, admitted);
    SerialKeeps(s, step, limit);
    CountsKeep(s, step, limit, admitted);
    forall r | r in s'.receipts ensures ReceiptIn(s', admitted', r) { ReceiptKeeps(s, step, limit, admitted, r); }
    forall l | l in s'.lanes && WillQueue(s'.lanes[l].at) ensures s'.lanes[l].id in admitted' {
      LaneKeeps(s, step, limit, admitted, l);
    }
    forall j | j in s'.jobs ensures s'.jobs[j].dedupe in admitted' { JobKeeps(s, step, limit, admitted, j); }
  }

  lemma {:induction false} LimitRun(s: State, steps: seq<Step>, limit: nat, admitted: set<MsgId>)
    returns (more: set<MsgId>)
    requires limit > 0 && Inv(s) && LimitInv(s, limit, admitted) && ValidRun(s, steps) && OrderlyRun(s, steps, limit)
    ensures LimitInv(Run(s, steps), limit, more)
    decreases steps
  {
    hide Apply, Enabled, Orderly, Inv, LimitInv, Next;
    if steps == [] {
      more := admitted;
    } else {
      StepKeeps(s, steps[0]);
      LimitKeeps(s, steps[0], limit, admitted);
      more := LimitRun(Apply(s, steps[0]), steps[1..], limit, Next(s, steps[0], admitted));
    }
  }

  // ---------------------------------------------------------------- main results

  /** In every orderly run each message with a job was charged, and at most `limit` of them to any counter: no user gets
      more images processed on a day than the limit. */
  lemma ImagesWithinDailyLimit(steps: seq<Step>, limit: nat, k: Counter)
    requires limit > 0 && ValidRun(INIT, steps) && OrderlyRun(INIT, steps, limit)
    ensures var s := Run(INIT, steps);
            && (forall j :: j in s.jobs ==> s.charges[s.jobs[j].dedupe] == 1 && s.jobs[j].dedupe in s.chargedTo)
            && |JobsChargedTo(s, k)| <= limit
  {
    hide Apply, Enabled, Orderly, OrderlyRun, Run, ValidRun, ReceiptIn, Inv;
    InitOk(limit);
    var admitted := LimitRun(INIT, steps, limit, {});
    var s := Run(INIT, steps);
    assert JobsChargedTo(s, k) <= AdmittedTo(s.chargedTo, admitted, k);
    SubsetSize(JobsChargedTo(s, k), AdmittedTo(s.chargedTo, admitted, k));
  }

  lemma InitOk(limit: nat)
    ensures Inv(INIT) && LimitInv(INIT, limit, {})
  {
    forall k ensures AdmittedTo(INIT.chargedTo, {}, k) == {} {}
  }

  lemma {:induction false} SubsetSize(a: set<MsgId>, b: set<MsgId>)
    requires a <= b
    ensures |a| <= |b|
  {
    if a != {} {
      var x :| x in a;
      SubsetSize(a - {x}, b - {x});
    }
  }

  // ---------------------------------------------------------------- each condition is needed

  /** Orderly in every step but `bad`. */
  ghost predicate OrderlyBut(s: State, steps: seq<Step>, limit: nat, bad: Step)
    requires ValidRun(s, steps)
    decreases steps
  {
    || steps == []
    || (&& (steps[0] == bad || Orderly(s, steps[0], limit))
        && OrderlyBut(Apply(s, steps[0]), steps[1..], limit, bad))
  }

  lemma {:induction false} AppendBut(s: State, steps: seq<Step>, step: Step, limit: nat, bad: Step)
    requires ValidRun(s, steps) && OrderlyBut(s, steps, limit, bad) && Enabled(Run(s, steps), step)
    requires step == bad || Orderly(Run(s, steps), step, limit)
    ensures ValidRun(s, steps + [step]) && OrderlyBut(s, steps + [step], limit, bad)
    ensures Run(s, steps + [step]) == Apply(Run(s, steps), step)
    decreases steps
  {
    hide Enabled, Apply, Orderly;
    RunAppend(s, steps, step);
    if steps == [] {
      assert (steps + [step])[0] == step && (steps + [step])[1..] == [];
    } else {
      assert (steps + [step])[0] == steps[0] && (steps + [step])[1..] == steps[1..] + [step];
      AppendBut(Apply(s, steps[0]), steps[1..], step, limit, bad);
    }
  }

  /** `s` is reached from the start by a run with limit one that is orderly but for `bad`. */
  ghost predicate Reached(steps: seq<Step>, s: State, bad: Step) {
    ValidRun(INIT, steps) && s == Run(INIT, steps) && OrderlyBut(INIT, steps, 1, bad)
  }

  lemma Then(steps: seq<Step>, s: State, step: Step, bad: Step) returns (more: seq<Step>, next: State)
    requires Reached(steps, s, bad) && Enabled(s, step) && (step == bad || Orderly(s, step, 1))
    ensures more == steps + [step] && next == Apply(s, step) && Reached(more, next, bad)
  {
    hide Enabled, Apply, Orderly, ValidRun, Run, OrderlyBut;
    AppendBut(INIT, steps, step, 1, bad);
    more, next := steps + [step], Apply(s, step);
  }

  const K: Counter := Counter(0, 0)

  /** One image of user 0 is queued and uses up the limit of one. */
  const FIRST: State := State(
    map[9 := Message(1, MsgProcessed, None, 0)], {1}, map[1 := Receipt(1, 0, Queued)], {1},
    map[1 := Job(1, 1)], map[1 := 1], map[K := 1], multiset{1}, map[1 := K], map[])

  /** The handler of a second image has got as far as `at`, and another delivery may come once the lock is free. */
  predicate Second(s: State, at: Progress) {
    && s.msgs == FIRST.msgs[0 := Message(5, MsgReceived, Some(0), 0)] && s.idsEver == {1, 5}
    && s.receipts == FIRST.receipts[7 := Receipt(5, 0, Received)] && s.receiptsEver == {1, 7}
    && s.jobs == FIRST.jobs && s.usage == map[K := if at.Refusing? then 2 else 1]
    && s.lanes == map[1 := Delivery(0, 5, 0, at)]
  }

  /** The points at which a handler owes something for the receipt it created. */
  predicate Owing(at: Progress) {
    at in {Inserted(true, 7), Loaded(true, 7, Received), Undoing(7), Refusing(7)}
  }

  lemma FirstImage(bad: Step) returns (steps: seq<Step>, s: State)
    ensures Reached(steps, s, bad) && s == FIRST
  {
    hide Reached;
    steps, s := Start(bad);
    steps, s := Then(steps, s, Claim(0, 9, 0, 0, 1, 0, 1), bad);
    steps, s := Then(steps, s, Insert(0, 1), bad);
    assert s == INIT.(msgs := map[9 := Message(1, MsgReceived, Some(0), 0)], idsEver := {1}, receiptsEver := {1},
                      receipts := map[1 := Receipt(1, 0, Received)],
                      lanes := map[0 := Delivery(9, 1, 0, Inserted(true, 1))]);
    steps, s := FirstAdmitted(steps, s, bad);
    steps, s := FirstQueued(steps, s, bad);
  }

  lemma FirstAdmitted(before: seq<Step>, now: State, bad: Step) returns (steps: seq<Step>, s: State)
    requires Reached(before, now, bad)
    requires now == INIT.(msgs := map[9 := Message(1, MsgReceived, Some(0), 0)], idsEver := {1}, receiptsEver := {1},
                          receipts := map[1 := Receipt(1, 0, Received)],
                          lanes := map[0 := Delivery(9, 1, 0, Inserted(true, 1))])
    ensures Reached(steps, s, bad)
    ensures s == now.(usage := map[K := 1], charges := multiset{1}, chargedTo := map[1 := K],
                      lanes := map[0 := Delivery(9, 1, 0, Admitted(1, Received))])
  {
    hide Reached;
    steps, s := Then(before, now, Load(0, Some(1)), bad);
    steps, s := Then(steps, s, Charge(0, 0, false, 1), bad);
  }

  lemma Start(bad: Step) returns (steps: seq<Step>, s: State)
    ensures Reached(steps, s, bad) && s == INIT
  {
    steps, s := [], INIT;
  }

  lemma FirstQueued(before: seq<Step>, now: State, bad: Step) returns (steps: seq<Step>, s: State)
    requires Reached(before, now, bad)
    requires now == FIRST.(msgs := map[9 := Message(1, MsgReceived, Some(0), 0)], jobs := map[], acks := map[],
                           receipts := map[1 := Receipt(1, 0, Received)],
                           lanes := map[0 := Delivery(9, 1, 0, Admitted(1, Received))])
    ensures Reached(steps, s, bad) && s == FIRST
  {
    hide Reached;
    steps, s := Then(before, now, Queue(0), bad);
    steps, s := Then(steps, s, Enqueue(0, 1), bad);
    assert s == FIRST.(msgs := now.msgs, acks := map[], lanes := map[0 := Delivery(9, 1, 0, Acking)]);
    steps, s := FirstAcknowledged(steps, s, bad);
  }

  lemma FirstAcknowledged(before: seq<Step>, now: State, bad: Step) returns (steps: seq<Step>, s: State)
    requires Reached(before, now, bad)
    requires now == FIRST.(msgs := map[9 := Message(1, MsgReceived, Some(0), 0)], acks := map[],
                           lanes := map[0 := Delivery(9, 1, 0, Acking)])
    ensures Reached(steps, s, bad) && s == FIRST
  {
    hide Reached;
    steps, s := Then(before, now, Ack(0, 1), bad);
    steps, s := Then(steps, s, Mark(0), bad);
  }

  lemma SecondImage(at: Progress, bad: Step) returns (steps: seq<Step>, s: State)
    requires Owing(at)
    ensures Reached(steps, s, bad) && Second(s, at)
  {
    hide Reached;
    steps, s := FirstImage(bad);
    steps, s := Then(steps, s, Claim(1, 0, 0, 0, 5, 0, 1), bad);
    assert !HasReceipt(s, 5);
    steps, s := Then(steps, s, Insert(1, 7), bad);
    assert Second(s, Inserted(true, 7));
    if at.Inserted? { return; }
    steps, s := SecondLoaded(steps, s, at, bad);
  }

  lemma SecondLoaded(before: seq<Step>, now: State, at: Progress, bad: Step) returns (steps: seq<Step>, s: State)
    requires Reached(before, now, bad) && Second(now, Inserted(true, 7)) && Owing(at) && !at.Inserted?
    ensures Reached(steps, s, bad) && Second(s, at)
  {
    hide Reached;
    steps, s := Then(before, now, Load(1, Some(7)), bad);
    assert Second(s, Loaded(true, 7, Received));
    if at.Undoing? {
      steps, s := SecondUncharged(steps, s, bad);
    } else if at.Refusing? {
      steps, s := SecondCharged(steps, s, bad);
    }
  }

  lemma SecondUncharged(before: seq<Step>, now: State, bad: Step) returns (steps: seq<Step>, s: State)
    requires Reached(before, now, bad) && Second(now, Loaded(true, 7, Received))
    ensures Reached(steps, s, bad) && Second(s, Undoing(7))
  {
    hide Reached;
    steps, s := Then(before, now, Charge(1, 0, true, 1), bad);
  }

  lemma SecondCharged(before: seq<Step>, now: State, bad: Step) returns (steps: seq<Step>, s: State)
    requires Reached(before, now, bad) && Second(now, Loaded(true, 7, Received))
    ensures Reached(steps, s, bad) && Second(s, Refusing(7))
  {
    hide Reached;
    steps, s := Then(before, now, Charge(1, 0, false, 1), bad);
  }

  /** The next delivery of the second image finds the receipt that another lane left, and queues it. */
  lemma Redelivered(before: seq<Step>, now: State, bad: Step) returns (steps: seq<Step>, s: State)
    requires Reached(before, now, bad) && 2 !in now.lanes && 6 !in now.idsEver && 8 !in now.receiptsEver
    requires 0 in now.msgs && now.msgs[0] == Message(5, MsgReceived, Some(0), 0) && now.jobs == FIRST.jobs
    requires 7 in now.receipts && now.receipts[7] == Receipt(5, 0, Received)
    requires bad == Insert(2, 8) || forall l :: l in now.lanes ==> !Busy(now.lanes[l].at)
    ensures Reached(steps, s, bad) && HasJob(s, 1) && HasJob(s, 5)
  {
    hide Reached;
    steps, s := Then(before, now, Claim(2, 0, 0, 0, 6, 10, 1), bad);
    assert HasReceipt(s, 5) by { assert 7 in s.receipts; }
    steps, s := Then(steps, s, Insert(2, 8), bad);
    steps, s := Then(steps, s, Load(2, Some(7)), bad);
    assert s.lanes[2] == Delivery(0, 5, 0, Loaded(false, 7, Received));
    assert s.receipts == now.receipts && s.jobs == now.jobs;
    steps, s := QueuedAgain(steps, s, bad);
  }

  lemma QueuedAgain(before: seq<Step>, now: State, bad: Step) returns (steps: seq<Step>, s: State)
    requires Reached(before, now, bad) && now.jobs == FIRST.jobs
    requires 7 in now.receipts && now.receipts[7] == Receipt(5, 0, Received)
    requires 2 in now.lanes && now.lanes[2] == Delivery(0, 5, 0, Loaded(false, 7, Received))
    ensures Reached(steps, s, bad) && HasJob(s, 1) && HasJob(s, 5)
  {
    hide Reached;
    steps, s := Then(before, now, Charge(2, 0, false, 1), bad);
    steps, s := Then(steps, s, Queue(2), bad);
    steps, s := Then(steps, s, Enqueue(2, 2), bad);
    assert 1 in s.jobs && 2 in s.jobs;
  }

  /** A handler that stops at any point at which it owes something, by a crash or by a failed statement, lets a second
      image through a limit of one; nothing else in the run is out of order. */
  lemma StopBreaksLimit(at: Progress, crash: bool) returns (steps: seq<Step>, s: State)
    requires Owing(at)
    ensures Reached(steps, s, if crash then Crash(1) else Fail(1)) && HasJob(s, 1) && HasJob(s, 5)
  {
    hide Reached;
    var bad := if crash then Crash(1) else Fail(1);
    steps, s := SecondImage(at, bad);
    steps, s := Then(steps, s, bad, bad);
    steps, s := Redelivered(steps, s, bad);
  }

  /** So does a second handler that ignores the user lock while the first is at such a point. */
  lemma NoLockBreaksLimit(at: Progress) returns (steps: seq<Step>, s: State)
    requires Owing(at)
    ensures Reached(steps, s, Insert(2, 8)) && HasJob(s, 1) && HasJob(s, 5)
  {
    hide Reached;
    steps, s := SecondImage(at, Insert(2, 8));
    steps, s := Redelivered(steps, s, Insert(2, 8));
  }
}
