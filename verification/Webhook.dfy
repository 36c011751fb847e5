/**
Deliveries of image webhooks: any number of lanes handle deliveries, retries and reclaims of the same messages, each
statement is one step, and a lane may stop between any two. No user lock is assumed here.
*/
module WebhookRuns {
  import opened Domain

  type Wire = nat       // what the provider calls the message
  type MsgId = nat      // the durable ID of the message row
  type ReceiptId = nat
  type JobId = nat
  type RowId = nat
  type Lane = nat
  type Time = int
  type User = nat
  type Day = nat
  type Hash = nat       // of the payload; 0 is the empty hash

  datatype MessageStatus = MsgReceived | MsgProcessed | MsgFailed | MsgDuplicate | MsgOther

  datatype Message = Message(id: MsgId, status: MessageStatus, started: Option<Time>, hash: Hash)

  datatype Receipt = Receipt(msg: MsgId, user: User, status: ReceiptStatus)

  datatype Job = Job(dedupe: MsgId, receipt: ReceiptId)

  /** A usage counter: the receipts of a user on a day. */
  datatype Counter = Counter(user: User, day: Day)

  /** Where a lane is in handleImage. `mine` says that this lane's insert made the row. */
  datatype Progress =
    | Claimed
    | Inserted(mine: bool, newId: ReceiptId)
    | Loaded(mine: bool, receipt: ReceiptId, status: ReceiptStatus)
    | Undoing(receipt: ReceiptId)
    | Refusing(receipt: ReceiptId)
    | Admitted(receipt: ReceiptId, status: ReceiptStatus)
    | Queueing(receipt: ReceiptId)
    | Acking
    | Ended(ok: bool)

  datatype Delivery = Delivery(wire: Wire, id: MsgId, user: User, at: Progress)

  /** `charges` logs the message of every usage charge, `chargedTo` the counter it went to. */
  datatype State = State(
    msgs: map<Wire, Message>, idsEver: set<MsgId>,
    receipts: map<ReceiptId, Receipt>, receiptsEver: set<ReceiptId>,
    jobs: map<JobId, Job>, acks: map<RowId, MsgId>,
    usage: map<Counter, nat>, charges: multiset<MsgId>, chargedTo: map<MsgId, Counter>,
    lanes: map<Lane, Delivery>)

  datatype Step =
    | Claim(lane: Lane, wire: Wire, user: User, hash: Hash, newId: MsgId, now: Time, lease: Time)
    | NoMedia(lane: Lane)
    | Insert(lane: Lane, newId: ReceiptId)
    | Load(lane: Lane, found: Option<ReceiptId>)
    | Charge(lane: Lane, day: Day, fails: bool, limit: nat)
    | Undo(lane: Lane)
    | Refuse(lane: Lane)
    | Queue(lane: Lane)
    | Enqueue(lane: Lane, job: JobId)
    | Ack(lane: Lane, row: RowId)
    | Mark(lane: Lane)
    | Fail(lane: Lane)
    | Crash(lane: Lane)
    | Move(receipt: ReceiptId, status: ReceiptStatus)
    | OtherCharge(counter: Counter)

  const INIT: State := State(map[], {}, map[], {}, map[], map[], map[], multiset{}, map[], map[])

  predicate HasReceipt(s: State, id: MsgId) {
    exists r :: r in s.receipts && s.receipts[r].msg == id
  }

  predicate HasJob(s: State, id: MsgId) {
    exists j :: j in s.jobs && s.jobs[j].dedupe == id
  }

  predicate HasAck(s: State, id: MsgId) {
    exists a :: a in s.acks && s.acks[a] == id
  }

  predicate SamePayload(m: Message, hash: Hash) {
    m.hash == 0 || hash == 0 || m.hash == hash
  }

  /** A delivery may be handled if the last attempt failed, or was abandoned for longer than the lease. */
  predicate Claimable(m: Message, hash: Hash, now: Time, lease: Time) {
    SamePayload(m, hash)
    && match m.status
       case MsgFailed => true
       case MsgReceived => m.started.None? || m.started.value <= now - lease
       case _ => false
  }

  function Count(usage: map<Counter, nat>, k: Counter): nat {
    if k in usage then usage[k] else 0
  }

  predicate Enabled(s: State, step: Step) {
    match step
    case Claim(lane, _, _, _, newId, _, lease) => lane !in s.lanes && newId !in s.idsEver && lease > 0
    case NoMedia(lane) => lane in s.lanes && s.lanes[lane].at.Claimed?
    case Insert(lane, newId) => lane in s.lanes && s.lanes[lane].at.Claimed? && newId !in s.receiptsEver
    case Load(lane, found) =>
      && lane in s.lanes && s.lanes[lane].at.Inserted?
      && (match found
          case None => !HasReceipt(s, s.lanes[lane].id)
          case Some(r) => r in s.receipts && s.receipts[r].msg == s.lanes[lane].id)
    case Charge(lane, _, _, _) => lane in s.lanes && s.lanes[lane].at.Loaded?
    case Undo(lane) => lane in s.lanes && s.lanes[lane].at.Undoing?
    case Refuse(lane) => lane in s.lanes && s.lanes[lane].at.Refusing?
    case Queue(lane) => lane in s.lanes && s.lanes[lane].at.Admitted?
    case Enqueue(lane, job) => lane in s.lanes && s.lanes[lane].at.Queueing? && job !in s.jobs
    case Ack(lane, row) => lane in s.lanes && s.lanes[lane].at.Acking? && row !in s.acks
    case Mark(lane) => lane in s.lanes && s.lanes[lane].at.Ended?
    case Fail(lane) => lane in s.lanes
    case Crash(lane) => lane in s.lanes
    case Move(r, status) => r in s.receipts && ReceiptCanMove(s.receipts[r].status, status)
    case OtherCharge(_) => true
  }

  // ---------------------------------------------------------------- the effect of a step, table by table

  predicate InStatus(s: State, r: ReceiptId, status: ReceiptStatus) {
    r in s.receipts && s.receipts[r].status == status
  }

  function NextMsgs(s: State, step: Step): map<Wire, Message>
    requires Enabled(s, step)
  {
    match step
    case Claim(_, wire, _, hash, newId, now, lease) =>
      if wire !in s.msgs then s.msgs[wire := Message(newId, MsgReceived, Some(now), hash)]
      else if Claimable(s.msgs[wire], hash, now, lease)
      then s.msgs[wire := s.msgs[wire].(status := MsgReceived, started := Some(now))]
      else s.msgs
    case Mark(lane) =>
      var d := s.lanes[lane];
      if d.wire !in s.msgs then s.msgs
      else s.msgs[d.wire := s.msgs[d.wire].(status := if d.at.ok then MsgProcessed else MsgFailed, started := None)]
    case _ => s.msgs
  }

  function NextReceipts(s: State, step: Step): map<ReceiptId, Receipt>
    requires Enabled(s, step)
  {
    match step
    case Insert(lane, newId) =>
      var d := s.lanes[lane];
      if HasReceipt(s, d.id) then s.receipts else s.receipts[newId := Receipt(d.id, d.user, Received)]
    case Undo(lane) =>
      var r := s.lanes[lane].at.receipt;
      if InStatus(s, r, Received) then s.receipts - {r} else s.receipts
    case Refuse(lane) =>
      var r := s.lanes[lane].at.receipt;
      if InStatus(s, r, Received) then s.receipts[r := s.receipts[r].(status := FailedPermanent)] else s.receipts
    case Queue(lane) =>
      var at := s.lanes[lane].at;
      if at.status == Received && InStatus(s, at.receipt, Received)
      then s.receipts[at.receipt := s.receipts[at.receipt].(status := Queued)] else s.receipts
    case Move(r, status) => s.receipts[r := s.receipts[r].(status := status)]
    case _ => s.receipts
  }

  /** The creator's charge, if it goes through. */
  predicate Charges(s: State, step: Step)
    requires Enabled(s, step)
  {
    step.Charge? && s.lanes[step.lane].at.mine && !step.fails
  }

  function NextCharges(s: State, step: Step): multiset<MsgId>
    requires Enabled(s, step)
  {
    if Charges(s, step) then s.charges + multiset{s.lanes[step.lane].id} else s.charges
  }

  function NextChargedTo(s: State, step: Step): map<MsgId, Counter>
    requires Enabled(s, step)
  {
    if Charges(s, step)
    then s.chargedTo[s.lanes[step.lane].id := Counter(s.lanes[step.lane].user, step.day)] else s.chargedTo
  }

  function NextUsage(s: State, step: Step): map<Counter, nat>
    requires Enabled(s, step)
  {
    if step.OtherCharge? then s.usage[step.counter := Count(s.usage, step.counter) + 1]
    else if Charges(s, step) then
      var k := Counter(s.lanes[step.lane].user, step.day);
      s.usage[k := Count(s.usage, k) + 1]
    else s.usage
  }

  function NextJobs(s: State, step: Step): map<JobId, Job>
    requires Enabled(s, step)
  {
    if step.Enqueue? && !HasJob(s, s.lanes[step.lane].id)
    then s.jobs[step.job := Job(s.lanes[step.lane].id, s.lanes[step.lane].at.receipt)] else s.jobs
  }

  function NextAcks(s: State, step: Step): map<RowId, MsgId>
    requires Enabled(s, step)
  {
    if step.Ack? && !HasAck(s, s.lanes[step.lane].id) then s.acks[step.row := s.lanes[step.lane].id] else s.acks
  }

  /** Where the lane of a step is afterwards. */
  function After(s: State, step: Step): Progress
    requires Enabled(s, step)
  {
    match step
    case Insert(lane, newId) => Inserted(!HasReceipt(s, s.lanes[lane].id), newId)
    case Load(lane, found) =>
      if found.None? || s.receipts[found.value].user != s.lanes[lane].user then Ended(false)
      else Loaded(s.lanes[lane].at.mine, found.value, s.receipts[found.value].status)
    case Charge(lane, day, fails, limit) =>
      var at := s.lanes[lane].at;
      if !at.mine then Admitted(at.receipt, at.status)
      else if fails then Undoing(at.receipt)
      else if limit > 0 && Count(s.usage, Counter(s.lanes[lane].user, day)) + 1 > limit then Refusing(at.receipt)
      else Admitted(at.receipt, at.status)
    case Refuse(lane) => Ended(InStatus(s, s.lanes[lane].at.receipt, Received))
    case Queue(lane) =>
      var at := s.lanes[lane].at;
      if at.status == Queued then Queueing(at.receipt)
      else if at.status != Received then Acking
      else if InStatus(s, at.receipt, Received) then Queueing(at.receipt)
      else Ended(false)
    case Enqueue(_, _) => Acking
    case Ack(_, _) => Ended(true)
    case NoMedia(_) => Ended(true)
    case _ => Ended(false)
  }

  function NextLanes(s: State, step: Step): map<Lane, Delivery>
    requires Enabled(s, step)
  {
    match step
    case Claim(lane, wire, user, hash, newId, now, lease) =>
      if wire !in s.msgs then s.lanes[lane := Delivery(wire, newId, user, Claimed)]
      else if Claimable(s.msgs[wire], hash, now, lease)
      then s.lanes[lane := Delivery(wire, s.msgs[wire].id, user, Claimed)]
      else s.lanes
    case Mark(lane) => s.lanes - {lane}
    case Crash(lane) => s.lanes - {lane}
    case Move(_, _) => s.lanes
    case OtherCharge(_) => s.lanes
    case _ => s.lanes[step.lane := s.lanes[step.lane].(at := After(s, step))]
  }

  function Apply(s: State, step: Step): State
    requires Enabled(s, step)
  {
    State(NextMsgs(s, step),
          if step.Claim? && step.wire !in s.msgs then s.idsEver + {step.newId} else s.idsEver,
          NextReceipts(s, step),
          if step.Insert? then s.receiptsEver + {step.newId} else s.receiptsEver,
          NextJobs(s, step), NextAcks(s, step),
          NextUsage(s, step), NextCharges(s, step), NextChargedTo(s, step), NextLanes(s, step))
  }

  ghost predicate ValidRun(s: State, steps: seq<Step>)
    decreases steps
  {
    steps == [] || (Enabled(s, steps[0]) && ValidRun(Apply(s, steps[0]), steps[1..]))
  }

  ghost function Run(s: State, steps: seq<Step>): State
    requires ValidRun(s, steps)
    decreases steps
  {
    if steps == [] then s else Run(Apply(s, steps[0]), steps[1..])
  }

  // ---------------------------------------------------------------- what every step keeps

  /** A wire name has one durable ID, and every lane works under the ID of its message. */
  ghost predicate IdsOk(s: State) {
    && (forall w :: w in s.msgs ==> s.msgs[w].id in s.idsEver)
    && (forall w, x :: w in s.msgs && x in s.msgs && s.msgs[w].id == s.msgs[x].id ==> w == x)
    && (forall l :: l in s.lanes ==> s.lanes[l].wire in s.msgs && s.msgs[s.lanes[l].wire].id == s.lanes[l].id)
  }

  /** The receipt a lane created and has not yet been charged for. */
  function Owned(p: Progress): Option<ReceiptId> {
    match p
    case Inserted(true, r) => Some(r)
    case Loaded(true, r, _) => Some(r)
    case Undoing(r) => Some(r)
    case _ => None
  }

  /** The receipt a lane holds after loading it, and the status it saw. */
  function Held(p: Progress): Option<ReceiptId> {
    match p
    case Loaded(_, r, _) => Some(r)
    case Refusing(r) => Some(r)
    case Admitted(r, _) => Some(r)
    case Queueing(r) => Some(r)
    case _ => None
  }

  predicate SawStarted(p: Progress) {
    match p
    case Loaded(_, _, status) => status != Received
    case Admitted(_, status) => status != Received
    case Queueing(_) => true
    case _ => false
  }

  /** The receipt exists for this message and has left the status in which it may be removed. */
  predicate Started(s: State, r: ReceiptId, id: MsgId) {
    r in s.receipts && s.receipts[r].msg == id && s.receipts[r].status != Received
  }

  ghost predicate ReceiptsOk(s: State) {
    && (forall r :: r in s.receipts ==> r in s.receiptsEver)
    && (forall q, r :: q in s.receipts && r in s.receipts && s.receipts[q].msg == s.receipts[r].msg ==> q == r)
  }

  ghost predicate OwnerOk(s: State, l: Lane)
    requires l in s.lanes
  {
    var o, id := Owned(s.lanes[l].at), s.lanes[l].id;
    o.Some? ==>
      && o.value in s.receipts && s.receipts[o.value].msg == id && s.receipts[o.value].user == s.lanes[l].user
      && s.charges[id] == 0
  }

  ghost predicate HolderOk(s: State, l: Lane)
    requires l in s.lanes
  {
    var h, id := Held(s.lanes[l].at), s.lanes[l].id;
    h.Some? ==>
      && h.value in s.receiptsEver
      && (h.value in s.receipts ==> s.receipts[h.value].msg == id && s.receipts[h.value].user == s.lanes[l].user)
      && (SawStarted(s.lanes[l].at) ==> Started(s, h.value, id))
  }

  ghost predicate LanesOk(s: State) {
    && (forall l :: l in s.lanes ==> OwnerOk(s, l) && HolderOk(s, l))
    && (forall l, m :: l in s.lanes && m in s.lanes && Owned(s.lanes[l].at).Some?
                       && Owned(s.lanes[l].at) == Owned(s.lanes[m].at)
                       ==> l == m)
  }

  ghost predicate ChargesOk(s: State) {
    forall id :: s.charges[id] <= 1 && (s.charges[id] == 1 ==> HasReceipt(s, id))
  }

  ghost predicate JobsOk(s: State) {
    && (forall j :: j in s.jobs ==> Started(s, s.jobs[j].receipt, s.jobs[j].dedupe))
    && (forall j, k :: j in s.jobs && k in s.jobs && s.jobs[j].dedupe == s.jobs[k].dedupe ==> j == k)
    && (forall a, b :: a in s.acks && b in s.acks && s.acks[a] == s.acks[b] ==> a == b)
  }

  ghost predicate Inv(s: State) {
    IdsOk(s) && ReceiptsOk(s) && LanesOk(s) && ChargesOk(s) && JobsOk(s)
  }

  predicate Moves(step: Step, l: Lane) {
    match step
    case Move(_, _) => false
    case OtherCharge(_) => false
    case _ => step.lane == l
  }

  /** What each kind of step leaves alone. */
  lemma TablesFramed(s: State, step: Step)
    requires Enabled(s, step)
    ensures var s' := Apply(s, step);
            && (!step.Claim? && !step.Mark? ==> s'.msgs == s.msgs && s'.idsEver == s.idsEver)
            && (!step.Insert? ==> s'.receiptsEver == s.receiptsEver)
            && s.receiptsEver <= s'.receiptsEver
            && (!step.Enqueue? ==> s'.jobs == s.jobs) && (!step.Ack? ==> s'.acks == s.acks)
            && (!step.Charge? ==> s'.charges == s.charges && s'.chargedTo == s.chargedTo)
  {
    hide After, NextLanes, Claimable, HasReceipt, HasJob, HasAck, ReceiptCanMove, NextReceipts, NextUsage;
  }

  lemma LanesFramed(s: State, step: Step)
    requires Enabled(s, step) && !step.Claim?
    ensures var s' := Apply(s, step);
            forall l :: l in s'.lanes ==>
                          && l in s.lanes && s'.lanes[l].wire == s.lanes[l].wire && s'.lanes[l].id == s.lanes[l].id
                          && s'.lanes[l].user == s.lanes[l].user
                          && (!Moves(step, l) ==> s'.lanes[l] == s.lanes[l])
  {
    hide NextMsgs, NextReceipts, NextCharges, NextChargedTo, NextUsage, NextJobs, NextAcks, After, Claimable,
      HasReceipt, HasJob, HasAck, ReceiptCanMove;
  }

  lemma ReceiptStays(s: State, step: Step, r: ReceiptId)
    requires Enabled(s, step) && r in s.receipts && ReceiptsOk(s)
    ensures var s' := Apply(s, step);
            && (!step.Undo? ==> r in s'.receipts)
            && (r in s'.receipts ==> s'.receipts[r] == s.receipts[r].(status := s'.receipts[r].status))
            && (r in s'.receipts && s.receipts[r].status != Received ==> s'.receipts[r].status != Received)
            && (s.receipts[r].status != Received ==> r in s'.receipts)
            && (step.Undo? && s.lanes[step.lane].at.receipt != r ==> r in s'.receipts)
  {
    hide NextMsgs, NextCharges, NextChargedTo, NextUsage, NextJobs, NextAcks, NextLanes, After, Claimable, HasReceipt,
      HasJob, HasAck;
  }

  lemma ReceiptIsOld(s: State, step: Step, r: ReceiptId)
    requires Enabled(s, step) && r in Apply(s, step).receipts
    ensures || r in s.receipts
            || (&& step.Insert? && r == step.newId && !HasReceipt(s, s.lanes[step.lane].id)
                && Apply(s, step).receipts[r] == Receipt(s.lanes[step.lane].id, s.lanes[step.lane].user, Received))
  {
    hide NextMsgs, NextCharges, NextChargedTo, NextUsage, NextJobs, NextAcks, NextLanes, After, Claimable, HasReceipt,
      HasJob, HasAck, ReceiptCanMove;
  }

  lemma ReceiptsKeep(s: State, step: Step)
    requires ReceiptsOk(s) && Enabled(s, step)
    ensures ReceiptsOk(Apply(s, step))
  {
    hide Apply, Enabled;
    var s' := Apply(s, step);
    TablesFramed(s, step);
    forall r | r in s'.receipts ensures r in s'.receiptsEver {
      ReceiptIsOld(s, step, r);
      if r !in s.receipts { InsertedEver(s, step); }
    }
    forall q, r | q in s'.receipts && r in s'.receipts && s'.receipts[q].msg == s'.receipts[r].msg ensures q == r {
      ReceiptIsOld(s, step, q);
      ReceiptIsOld(s, step, r);
      if q in s.receipts { ReceiptStays(s, step, q); }
      if r in s.receipts { ReceiptStays(s, step, r); }
    }
  }

  lemma InsertedEver(s: State, step: Step)
    requires Enabled(s, step) && step.Insert? && step.newId in Apply(s, step).receipts && ReceiptsOk(s)
    ensures step.newId in Apply(s, step).receiptsEver
  {
    hide NextMsgs, NextReceipts, NextCharges, NextChargedTo, NextUsage, NextJobs, NextAcks, NextLanes, After;
  }

  lemma IdsKeep(s: State, step: Step)
    requires IdsOk(s) && Enabled(s, step)
    ensures IdsOk(Apply(s, step))
    ensures forall w :: w in s.msgs ==> w in Apply(s, step).msgs && Apply(s, step).msgs[w].id == s.msgs[w].id
  {
    hide Apply, Enabled, IdsOk;
    match step
    case Claim(_, _, _, _, _, _, _) => IdsClaim(s, step);
    case Mark(_) => IdsMark(s, step);
    case _ => IdsOther(s, step);
  }

  lemma IdsOther(s: State, step: Step)
    requires IdsOk(s) && Enabled(s, step) && !step.Claim? && !step.Mark?
    ensures IdsOk(Apply(s, step)) && Apply(s, step).msgs == s.msgs
  {
    hide Apply, Enabled;
    TablesFramed(s, step);
    LanesFramed(s, step);
  }

  lemma IdsClaim(s: State, step: Step)
    requires IdsOk(s) && Enabled(s, step) && step.Claim?
    ensures IdsOk(Apply(s, step))
    ensures forall w :: w in s.msgs ==> w in Apply(s, step).msgs && Apply(s, step).msgs[w].id == s.msgs[w].id
  {
    hide NextReceipts, NextCharges, NextChargedTo, NextUsage, NextJobs, NextAcks, After, Claimable;
  }

  lemma IdsMark(s: State, step: Step)
    requires IdsOk(s) && Enabled(s, step) && step.Mark?
    ensures IdsOk(Apply(s, step))
    ensures forall w :: w in s.msgs ==> w in Apply(s, step).msgs && Apply(s, step).msgs[w].id == s.msgs[w].id
  {
    hide NextReceipts, NextCharges, NextChargedTo, NextUsage, NextJobs, NextAcks, After;
  }

  /** Receipts that have started stay, whatever happens. */
  lemma StartedKeeps(s: State, step: Step, r: ReceiptId, id: MsgId)
    requires Started(s, r, id) && Enabled(s, step) && ReceiptsOk(s)
    ensures Started(Apply(s, step), r, id)
  {
    hide Apply, Enabled;
    ReceiptStays(s, step, r);
  }

  lemma JobsKeep(s: State, step: Step)
    requires Inv(s) && Enabled(s, step)
    ensures JobsOk(Apply(s, step))
  {
    hide IdsOk, ChargesOk, Started, Apply, HolderOk, OwnerOk;
    if step.Enqueue? {
      assert HolderOk(s, step.lane);
      JobsEnqueue(s, step);
    } else if step.Ack? {
      JobsAck(s, step);
    } else {
      TablesFramed(s, step);
      forall j | j in s.jobs ensures Started(Apply(s, step), s.jobs[j].receipt, s.jobs[j].dedupe) {
        StartedKeeps(s, step, s.jobs[j].receipt, s.jobs[j].dedupe);
      }
    }
  }

  lemma JobsEnqueue(s: State, step: Step)
    requires JobsOk(s) && Enabled(s, step) && step.Enqueue? && HolderOk(s, step.lane)
    ensures JobsOk(Apply(s, step))
  {
    hide NextMsgs, NextCharges, NextChargedTo, NextUsage, NextLanes, After;
    var s' := Apply(s, step);
    assert s'.receipts == s.receipts;
    assert Started(s, s.lanes[step.lane].at.receipt, s.lanes[step.lane].id);
  }

  lemma JobsAck(s: State, step: Step)
    requires JobsOk(s) && Enabled(s, step) && step.Ack?
    ensures JobsOk(Apply(s, step))
  {
    hide NextMsgs, NextCharges, NextChargedTo, NextUsage, NextLanes, After;
    assert Apply(s, step).receipts == s.receipts;
  }

  lemma ChargesKeep(s: State, step: Step)
    requires Inv(s) && Enabled(s, step)
    ensures ChargesOk(Apply(s, step))
  {
    hide Apply, Enabled;
    var s' := Apply(s, step);
    forall id ensures s'.charges[id] <= 1 && (s'.charges[id] == 1 ==> HasReceipt(s', id)) {
      ChargeKeeps(s, step, id);
    }
  }

  lemma ChargeCounts(s: State, step: Step, id: MsgId)
    requires Enabled(s, step) && step.Charge?
    ensures Apply(s, step).charges[id] == s.charges[id] || (
              && s.lanes[step.lane].id == id && Owned(s.lanes[step.lane].at).Some?
              && Apply(s, step).charges[id] == s.charges[id] + 1)
  {
    hide NextMsgs, NextReceipts, NextJobs, NextAcks, NextLanes, After;
  }

  lemma ChargeKeeps(s: State, step: Step, id: MsgId)
    requires Inv(s) && Enabled(s, step)
    ensures var s' := Apply(s, step); s'.charges[id] <= 1 && (s'.charges[id] == 1 ==> HasReceipt(s', id))
  {
    hide Apply, IdsOk, JobsOk, HolderOk;
    var s' := Apply(s, step);
    TablesFramed(s, step);
    if step.Charge? { ChargeCounts(s, step, id); }
    if s'.charges[id] > 0 {
      if step.Undo? || step.Charge? { assert OwnerOk(s, step.lane); }
      assert HasReceipt(s, id);
      var r :| r in s.receipts && s.receipts[r].msg == id;
      ReceiptStays(s, step, r);
      assert r in s'.receipts && s'.receipts[r].msg == id;
    }
  }

  // ---------------------------------------------------------------- lanes

  lemma OwnerKeeps(s: State, step: Step, l: Lane)
    requires Inv(s) && Enabled(s, step) && l in Apply(s, step).lanes
    ensures OwnerOk(Apply(s, step), l)
  {
    hide IdsOk, JobsOk, HolderOk;
    var s' := Apply(s, step);
    if Moves(step, l) {
      OwnerMoves(s, step);
    } else {
      hide Apply;
      Unmoved(s, step, l);
      TablesFramed(s, step);
      var o, id := Owned(s.lanes[l].at), s.lanes[l].id;
      if o.Some? {
        assert OwnerOk(s, l);
        ReceiptStays(s, step, o.value);
        if step.Undo? { assert Owned(s.lanes[step.lane].at).Some? && step.lane != l; }
        if step.Charge? {
          ChargeCounts(s, step, id);
          assert OwnerOk(s, step.lane);
        }
      }
    }
  }

  lemma Unmoved(s: State, step: Step, l: Lane)
    requires Enabled(s, step) && l in Apply(s, step).lanes && !Moves(step, l)
    ensures l in s.lanes && Apply(s, step).lanes[l] == s.lanes[l]
  {
    hide NextMsgs, NextReceipts, NextCharges, NextChargedTo, NextUsage, NextJobs, NextAcks, After, Claimable,
      HasReceipt, HasJob, HasAck, ReceiptCanMove;
  }

  lemma OwnerMoves(s: State, step: Step)
    requires ReceiptsOk(s) && LanesOk(s) && ChargesOk(s) && Enabled(s, step) && !step.Move? && !step.OtherCharge?
    requires step.lane in Apply(s, step).lanes
    ensures OwnerOk(Apply(s, step), step.lane)
  {
    hide Apply, HolderOk;
    if step.lane in s.lanes { assert OwnerOk(s, step.lane); }
    if step.Insert? {
      OwnerInserts(s, step);
    } else if step.Load? || step.Charge? {
      OwnerHolds(s, step);
    } else {
      OwnsNothing(s, step);
    }
  }

  lemma OwnerInserts(s: State, step: Step)
    requires Enabled(s, step) && step.Insert? && ChargesOk(s)
    ensures OwnerOk(Apply(s, step), step.lane)
  {
    hide NextMsgs, NextJobs, NextAcks, Claimable;
    assert s.charges[s.lanes[step.lane].id] <= 1;
  }

  lemma OwnerHolds(s: State, step: Step)
    requires Enabled(s, step) && (step.Load? || step.Charge?) && OwnerOk(s, step.lane)
    ensures OwnerOk(Apply(s, step), step.lane)
  {
    hide NextMsgs, NextJobs, NextAcks, Claimable, HasReceipt;
  }

  lemma OwnsNothing(s: State, step: Step)
    requires Enabled(s, step) && !step.Move? && !step.OtherCharge? && !step.Insert? && !step.Load? && !step.Charge?
    requires step.lane in Apply(s, step).lanes && (step.lane in s.lanes ==> !step.Claim?)
    ensures Owned(Apply(s, step).lanes[step.lane].at) == None
  {
    hide NextMsgs, NextJobs, NextAcks, NextReceipts, NextCharges, NextChargedTo, NextUsage, Claimable, InStatus;
  }

  lemma HolderKeeps(s: State, step: Step, l: Lane)
    requires Inv(s) && Enabled(s, step) && l in Apply(s, step).lanes
    ensures HolderOk(Apply(s, step), l)
  {
    hide IdsOk, JobsOk, OwnerOk;
    if Moves(step, l) {
      HolderMoves(s, step);
    } else {
      hide Apply;
      var s' := Apply(s, step);
      Unmoved(s, step, l);
      TablesFramed(s, step);
      var h, id := Held(s.lanes[l].at), s.lanes[l].id;
      if h.Some? {
        assert HolderOk(s, l);
        if h.value in s'.receipts {
          ReceiptIsOld(s, step, h.value);
          if h.value in s.receipts { ReceiptStays(s, step, h.value); } else { NewIsNew(s, step); }
        }
        if SawStarted(s.lanes[l].at) { StartedKeeps(s, step, h.value, id); }
      }
    }
  }

  lemma NewIsNew(s: State, step: Step)
    requires Enabled(s, step) && step.Insert?
    ensures step.newId !in s.receiptsEver
  {
  }

  lemma HolderMoves(s: State, step: Step)
    requires ReceiptsOk(s) && LanesOk(s) && Enabled(s, step) && !step.Move? && !step.OtherCharge?
    requires step.lane in Apply(s, step).lanes
    ensures HolderOk(Apply(s, step), step.lane)
  {
    hide NextMsgs, NextCharges, NextChargedTo, NextUsage, NextJobs, NextAcks, Claimable, ReceiptCanMove, OwnerOk, Owned;
    if step.lane in s.lanes { assert HolderOk(s, step.lane); }
  }

  lemma OwnersDistinct(s: State, step: Step, l: Lane, m: Lane)
    requires Inv(s) && Enabled(s, step) && l in Apply(s, step).lanes && m in Apply(s, step).lanes && l != m
    requires !Moves(step, m)
    ensures Owned(Apply(s, step).lanes[l].at).Some? ==>
              Owned(Apply(s, step).lanes[l].at) != Owned(Apply(s, step).lanes[m].at)
  {
    hide IdsOk, JobsOk, HolderOk;
    Unmoved(s, step, m);
    assert OwnerOk(s, m);
    if Moves(step, l) { OwnedComesFrom(s, step); } else { Unmoved(s, step, l); }
  }

  lemma OwnedComesFrom(s: State, step: Step)
    requires ReceiptsOk(s) && LanesOk(s) && Enabled(s, step) && !step.Move? && !step.OtherCharge?
    requires step.lane in Apply(s, step).lanes
    ensures var o := Owned(Apply(s, step).lanes[step.lane].at);
            o.Some? ==> (step.lane in s.lanes && Owned(s.lanes[step.lane].at) == o) || o.value !in s.receipts
  {
    hide NextMsgs, NextReceipts, NextCharges, NextChargedTo, NextUsage, NextJobs, NextAcks, Claimable, ReceiptCanMove,
      HolderOk, Held;
    if step.lane in s.lanes { assert OwnerOk(s, step.lane); }
  }

  lemma LanesKeep(s: State, step: Step)
    requires Inv(s) && Enabled(s, step)
    ensures LanesOk(Apply(s, step))
  {
    hide Apply, Enabled, OwnerOk, HolderOk, Owned, Inv;
    var s' := Apply(s, step);
    forall l | l in s'.lanes ensures OwnerOk(s', l) && HolderOk(s', l) {
      OwnerKeeps(s, step, l);
      HolderKeeps(s, step, l);
    }
    forall l, m | l in s'.lanes && m in s'.lanes && Owned(s'.lanes[l].at).Some?
                  && Owned(s'.lanes[l].at) == Owned(s'.lanes[m].at)
      ensures l == m
    {
      if l != m {
        if Moves(step, m) { OwnersDistinct(s, step, m, l); } else { OwnersDistinct(s, step, l, m); }
      }
    }
  }

  lemma StepKeeps(s: State, step: Step)
    requires Inv(s) && Enabled(s, step)
    ensures Inv(Apply(s, step))
    ensures forall w :: w in s.msgs ==> w in Apply(s, step).msgs && Apply(s, step).msgs[w].id == s.msgs[w].id
  {
    hide Apply, Enabled, LanesOk, ReceiptsOk, ChargesOk, JobsOk, IdsOk;
    IdsKeep(s, step);
    ReceiptsKeep(s, step);
    LanesKeep(s, step);
    ChargesKeep(s, step);
    JobsKeep(s, step);
  }

  lemma {:induction false} RunKeeps(s: State, steps: seq<Step>)
    requires Inv(s) && ValidRun(s, steps)
    ensures Inv(Run(s, steps))
    ensures forall w :: w in s.msgs ==> w in Run(s, steps).msgs && Run(s, steps).msgs[w].id == s.msgs[w].id
    decreases steps
  {
    hide Apply, Enabled, Inv;
    if steps != [] {
      StepKeeps(s, steps[0]);
      RunKeeps(Apply(s, steps[0]), steps[1..]);
    }
  }

  // ---------------------------------------------------------------- main results

  /** However often an image is delivered, reclaimed or abandoned, its message has at most one receipt, one job, one
      acknowledgement and one usage charge. */
  lemma OnePipelinePerImage(steps: seq<Step>, id: MsgId)
    requires ValidRun(INIT, steps)
    ensures var s := Run(INIT, steps);
            && (forall q, r :: q in s.receipts && r in s.receipts && s.receipts[q].msg == s.receipts[r].msg == id
                               ==> q == r)
            && (forall j, k :: j in s.jobs && k in s.jobs && s.jobs[j].dedupe == s.jobs[k].dedupe == id ==> j == k)
            && (forall a, b :: a in s.acks && b in s.acks && s.acks[a] == s.acks[b] == id ==> a == b)
            && s.charges[id] <= 1
  {
    hide Apply, Enabled, Run, ValidRun;
    RunKeeps(INIT, steps);
  }

  /** A job is only ever queued for the receipt of its message, after that receipt has left `received`. */
  lemma JobsNameStartedReceipts(steps: seq<Step>, j: JobId)
    requires ValidRun(INIT, steps) && j in Run(INIT, steps).jobs
    ensures var s := Run(INIT, steps); Started(s, s.jobs[j].receipt, s.jobs[j].dedupe)
  {
    hide Apply, Enabled, Run, ValidRun;
    RunKeeps(INIT, steps);
  }

  /** The durable ID of a provider message never changes, and two messages never share one. */
  lemma DurableIds(before: seq<Step>, after: seq<Step>, w: Wire, x: Wire)
    requires ValidRun(INIT, before) && ValidRun(Run(INIT, before), after)
    requires w in Run(INIT, before).msgs && x in Run(INIT, before).msgs
    ensures var s, s' := Run(INIT, before), Run(Run(INIT, before), after);
            && w in s'.msgs && s'.msgs[w].id == s.msgs[w].id
            && (s.msgs[w].id == s.msgs[x].id ==> w == x)
  {
    hide Apply, Enabled, Run, ValidRun;
    RunKeeps(INIT, before);
    RunKeeps(Run(INIT, before), after);
  }

  lemma {:induction false} RunAppend(s: State, steps: seq<Step>, step: Step)
    requires ValidRun(s, steps) && Enabled(Run(s, steps), step)
    ensures ValidRun(s, steps + [step]) && Run(s, steps + [step]) == Apply(Run(s, steps), step)
    decreases steps
  {
    hide Enabled, Apply;
    if steps == [] {
      assert (steps + [step])[0] == step && (steps + [step])[1..] == [];
    } else {
      assert (steps + [step])[0] == steps[0] && (steps + [step])[1..] == steps[1..] + [step];
      RunAppend(Apply(s, steps[0]), steps[1..], step);
    }
  }

  lemma Extend(s: State, steps: seq<Step>, now: State, step: Step) returns (more: seq<Step>, next: State)
    requires ValidRun(s, steps) && now == Run(s, steps) && Enabled(now, step)
    ensures more == steps + [step] && ValidRun(s, more)
    ensures next == Apply(now, step) == Run(s, more)
  {
    hide Enabled, Apply;
    RunAppend(s, steps, step);
    more := steps + [step];
    next := Apply(now, step);
  }

  lemma NoSteps(s: State)
    ensures ValidRun(s, []) && Run(s, []) == s
  {
  }

}

/** One delivery as the handler runs it. */
module Webhook {
  import opened Domain
  import Runs = WebhookRuns

  type MsgId = Runs.MsgId
  type ReceiptId = Runs.ReceiptId
  type User = Runs.User

  /** The statements of handleImage; the store may fail any of them, and then it has no effect. `Answering` is the reply
      to a refused image and to a message without media. */
  datatype Statement =
    | Inserting | Loading | Charging | Deleting | Refusing | Answering | Queueing | Enqueueing | Acknowledging

  function QueuedIfNew(receipt: Runs.Receipt, id: MsgId): Runs.Receipt {
    if receipt.msg == id && receipt.status == Received then receipt.(status := Queued) else receipt
  }

  /** The receipt has left `received`, and if it waits to be processed, its job and its acknowledgement exist. */
  ghost predicate Handled(s: Runs.State, id: MsgId) {
    exists r :: Runs.Started(s, r, id) && (s.receipts[r].status == Queued ==> Runs.HasJob(s, id) && Runs.HasAck(s, id))
  }

  function Verdict(count: nat, limit: nat): ReceiptStatus {
    if limit > 0 && count > limit then FailedPermanent else Queued
  }

  /** The message already has a receipt, of another user. */
  ghost predicate Foreign(s: Runs.State, id: MsgId, user: User) {
    exists r :: r in s.receipts && s.receipts[r].msg == id && s.receipts[r].user != user
  }

  /** A lane in a state of the model, at a point of its delivery. */
  ghost predicate At(s: Runs.State, lane: Runs.Lane, id: MsgId, user: User, at: Runs.Progress) {
    lane in s.lanes && s.lanes[lane].id == id && s.lanes[lane].user == user && s.lanes[lane].at == at
  }

  /** `s` is reached from `s0` by `steps`, and keeps the invariant. */
  ghost predicate Reached(s0: Runs.State, steps: seq<Runs.Step>, s: Runs.State) {
    Runs.ValidRun(s0, steps) && s == Runs.Run(s0, steps) && Runs.Inv(s)
  }

  lemma Start(s: Runs.State)
    requires Runs.Inv(s)
    ensures Reached(s, [], s)
  {
    Runs.NoSteps(s);
  }

  lemma Then(s0: Runs.State, before: seq<Runs.Step>, s: Runs.State, step: Runs.Step)
    returns (more: seq<Runs.Step>, next: Runs.State)
    requires Reached(s0, before, s) && Runs.Enabled(s, step)
    ensures more == before + [step] && next == Runs.Apply(s, step) && Reached(s0, more, next)
  {
    hide Runs.Inv, Runs.Enabled, Runs.Apply, Runs.ValidRun, Runs.Run;
    more, next := Runs.Extend(s0, before, s, step);
    Runs.StepKeeps(s, step);
  }

  lemma Unique(s0: Runs.State, steps: seq<Runs.Step>, s: Runs.State, id: MsgId)
    requires Reached(s0, steps, s)
    ensures forall q, r :: q in s.receipts && r in s.receipts && s.receipts[q].msg == s.receipts[r].msg == id ==> q == r
  {
  }

  class ImageDb {
    var msgs: map<Runs.Wire, Runs.Message>
    var receipts: map<ReceiptId, Runs.Receipt>
    var jobs: map<Runs.JobId, Runs.Job>
    var acks: map<Runs.RowId, MsgId>
    var usage: map<Runs.Counter, nat>

    ghost predicate Matches(s: Runs.State)
      reads this
    {
      s.msgs == msgs && s.receipts == receipts && s.jobs == jobs && s.acks == acks && s.usage == usage
    }

    /** The message row is the anchor of a retry: whoever claims it again works under its first ID. */
    method ClaimProviderMessage(wire: Runs.Wire, newId: MsgId, hash: Runs.Hash, now: Runs.Time, lease: Runs.Time)
      returns (o: Outcome, claimed: bool, id: MsgId)
      modifies this`msgs
      ensures claimed <==>
                && lease > 0
                && (wire in old(msgs) ==>
                      var m := old(msgs)[wire];
                      && (m.hash == hash || m.hash == 0 || hash == 0)
                      && (|| m.status == Runs.MsgFailed
                          || (m.status == Runs.MsgReceived && (m.started.Some? ==> m.started.value + lease <= now))))
      ensures claimed ==>
                && o == Nil && id == (if wire in old(msgs) then old(msgs)[wire].id else newId)
                && msgs == old(msgs)[wire := Runs.Message(id, Runs.MsgReceived, Some(now),
                                                          if wire in old(msgs) then old(msgs)[wire].hash else hash)]
      ensures !claimed ==> msgs == old(msgs)
      ensures !claimed && lease > 0 ==>
                var m := old(msgs)[wire];
                o == if !Runs.SamePayload(m, hash) || m.status == Runs.MsgOther then Err(Validation)
                     else if m.status == Runs.MsgReceived then Err(Conflict) else Nil
      ensures lease <= 0 ==> o == Err(Validation)
    {
      o, claimed, id := Nil, false, newId;
      if lease <= 0 { return Err(Validation), false, newId; }
      if wire !in msgs {
        msgs := msgs[wire := Runs.Message(newId, Runs.MsgReceived, Some(now), hash)];
        return Nil, true, newId;
      }
      var existing := msgs[wire];
      id := existing.id;
      if existing.hash != 0 && hash != 0 && existing.hash != hash { return Err(Validation), false, id; }
      match existing.status {
        case MsgProcessed => return;
        case MsgDuplicate => return;
        case MsgReceived =>
          if existing.started.Some? && existing.started.value > now - lease { return Err(Conflict), false, id; }
        case MsgFailed =>
        case MsgOther => return Err(Validation), false, id;
      }
      msgs := msgs[wire := existing.(status := Runs.MsgReceived, started := Some(now))];
      claimed := true;
    }

    /** INSERT ... ON CONFLICT DO NOTHING. */
    method InsertReceipt(id: MsgId, user: User, newId: ReceiptId) returns (created: bool)
      requires newId !in receipts
      modifies this`receipts
      ensures created <==> !(exists r :: r in old(receipts) && old(receipts)[r].msg == id)
      ensures receipts == if created then old(receipts)[newId := Runs.Receipt(id, user, Received)] else old(receipts)
    {
      created := true;
      if r :| r in receipts && receipts[r].msg == id { created := false; }
      if created { receipts := receipts[newId := Runs.Receipt(id, user, Received)]; }
    }

    method FindReceipt(id: MsgId) returns (found: Option<ReceiptId>)
      ensures match found
              case None => !(exists r :: r in receipts && receipts[r].msg == id)
              case Some(r) => r in receipts && receipts[r].msg == id
    {
      found := None;
      if r :| r in receipts && receipts[r].msg == id { found := Some(r); }
    }

    method TransitionReceipt(r: ReceiptId, from: ReceiptStatus, to: ReceiptStatus) returns (o: Outcome)
      modifies this`receipts
      ensures o == Nil <==> r in old(receipts) && old(receipts)[r].status == from
      ensures receipts == if o == Nil then old(receipts)[r := old(receipts)[r].(status := to)] else old(receipts)
    {
      if r !in receipts || receipts[r].status != from { return Err(Conflict); }
      receipts := receipts[r := receipts[r].(status := to)];
      o := Nil;
    }

    method DeleteReceivedReceipt(r: ReceiptId)
      modifies this`receipts
      ensures receipts ==
              if r in old(receipts) && old(receipts)[r].status == Received then old(receipts) - {r} else old(receipts)
    {
      if r in receipts && receipts[r].status == Received { receipts := receipts - {r}; }
    }

    method IncrementUsage(k: Runs.Counter) returns (count: nat)
      modifies this`usage
      ensures count == Runs.Count(old(usage), k) + 1 && usage == old(usage)[k := count]
    {
      count := (if k in usage then usage[k] else 0) + 1;
      usage := usage[k := count];
    }

    method EnqueueJob(job: Runs.JobId, id: MsgId, r: ReceiptId)
      requires job !in jobs
      modifies this`jobs
      ensures jobs == if exists j :: j in old(jobs) && old(jobs)[j].dedupe == id
                      then old(jobs) else old(jobs)[job := Runs.Job(id, r)]
    {
      if j :| j in jobs && jobs[j].dedupe == id { return; }
      jobs := jobs[job := Runs.Job(id, r)];
    }

    method ReplyAck(row: Runs.RowId, id: MsgId)
      requires row !in acks
      modifies this`acks
      ensures acks == if exists a :: a in old(acks) && old(acks)[a] == id then old(acks) else old(acks)[row := id]
    {
      if a :| a in acks && acks[a] == id { return; }
      acks := acks[row := id];
    }

    /** Registers the image and queues its processing. The first handler charges the daily usage and, past the limit,
        refuses the receipt; a later one finds the receipt as it is, finishes what is missing and charges nothing. Any
        statement may fail, and nil is returned only if everything that the state of the receipt calls for is there. */
    method HandleImage(id: MsgId, user: User, media: bool, newId: ReceiptId, job: Runs.JobId, row: Runs.RowId,
                       day: Runs.Day, limit: nat, faults: set<Statement>, ghost s: Runs.State, ghost lane: Runs.Lane)
      returns (o: Outcome, ghost trace: seq<Runs.Step>, ghost s': Runs.State)
      requires Matches(s) && Runs.Inv(s) && At(s, lane, id, user, Runs.Claimed)
      requires newId !in s.receiptsEver && newId !in receipts && job !in jobs && row !in acks
      modifies this`receipts, this`jobs, this`acks, this`usage
      ensures Reached(s, trace, s') && Matches(s') && At(s', lane, id, user, Runs.Ended(o == Nil))
      ensures o == Nil && media ==> Handled(s', id)
      ensures !media ==> o == if Answering in faults then Err(Internal) else Nil
      ensures !media ==>
                receipts == old(receipts) && jobs == old(jobs) && acks == old(acks) && usage == old(usage)
      ensures media && faults == {} ==> o == if Foreign(s, id, user) then Err(Conflict) else Nil
      ensures media && Runs.HasReceipt(s, id) ==> usage == old(usage)
      ensures o == Nil && media && !Runs.HasReceipt(s, id) ==>
                var count := Runs.Count(old(usage), Runs.Counter(user, day)) + 1;
                var status := if limit == 0 || count <= limit then Queued else FailedPermanent;
                && usage == old(usage)[Runs.Counter(user, day) := count]
                && receipts == old(receipts)[newId := Runs.Receipt(id, user, status)]
                && (status == Queued ==> exists a :: a in acks && acks[a] == id)
      ensures o == Nil && media && Runs.HasReceipt(s, id) ==>
                && receipts.Keys == old(receipts).Keys
                && (forall r :: r in receipts ==>
                      var x := old(receipts)[r];
                      receipts[r] == if x.msg == id && x.status == Received then x.(status := Queued) else x)
                && exists a :: a in acks && acks[a] == id
      ensures o == Nil && media ==>
                exists r :: r in receipts && receipts[r].msg == id && receipts[r].status != Received
                            && (receipts[r].status == Queued ==> exists j :: j in jobs && jobs[j].dedupe == id)
      ensures jobs == old(jobs) || exists r :: r in receipts && receipts[r].msg == id
                                               && jobs == old(jobs)[job := Runs.Job(id, r)]
      ensures acks == old(acks) || acks == old(acks)[row := id]
      ensures media && faults == {Charging} && !Runs.HasReceipt(s, id) ==>
                o != Nil && receipts == old(receipts) && jobs == old(jobs) && usage == old(usage)
      ensures media && faults == {Answering} && !Runs.HasReceipt(s, id) ==>
                var count := Runs.Count(old(usage), Runs.Counter(user, day)) + 1;
                && (o == Nil <==> Verdict(count, limit) == Queued)
                && usage == old(usage)[Runs.Counter(user, day) := count]
                && receipts == old(receipts)[newId := Runs.Receipt(id, user, Verdict(count, limit))]
    {
      hide Reached, Handled, Runs.Apply, Runs.Inv, Matches, At, QueuedIfNew;
      if !media {
        o, trace, s' := Unsupported(id, user, faults, s, lane);
        return;
      }
      var r, created;
      o, r, created, trace, s' := Register(id, user, newId, faults, s, lane);
      if o != Nil { return; }
      if created {
        o, trace, s' := Admit(id, user, r, job, row, day, limit, faults, s, trace, s', lane);
        if faults == {Charging} { assert old(receipts)[r := Runs.Receipt(id, user, Received)] - {r} == old(receipts); }
      } else {
        o, trace, s' := Resume(id, user, r, job, row, day, limit, faults, s, trace, s', lane);
      }
      if o == Nil { Shown(s', id); }
    }

    /** A receipt that was there: it is queued if nobody has, and what is missing is repaired. */
    method Resume(id: MsgId, user: User, r: ReceiptId, job: Runs.JobId, row: Runs.RowId, day: Runs.Day, limit: nat,
                  faults: set<Statement>, ghost s0: Runs.State, ghost before: seq<Runs.Step>, ghost s: Runs.State,
                  ghost lane: Runs.Lane)
      returns (o: Outcome, ghost trace: seq<Runs.Step>, ghost s': Runs.State)
      requires Reached(s0, before, s) && Matches(s) && r in receipts && receipts[r].msg == id
      requires At(s, lane, id, user, Runs.Loaded(false, r, receipts[r].status)) && job !in jobs && row !in acks
      requires forall q :: q in receipts && receipts[q].msg == id ==> q == r
      modifies this`receipts, this`jobs, this`acks
      ensures Reached(s0, trace, s') && Matches(s') && At(s', lane, id, user, Runs.Ended(o == Nil))
      ensures faults !! {Queueing, Enqueueing, Acknowledging} ==> o == Nil
      ensures o == Nil ==> Handled(s', id) && exists a :: a in acks && acks[a] == id
      ensures o == Nil ==>
                && receipts.Keys == old(receipts).Keys
                && forall q :: q in receipts ==>
                     var x := old(receipts)[q];
                     receipts[q] == if x.msg == id && x.status == Received then Runs.Receipt(id, x.user, Queued) else x
      ensures jobs == old(jobs) || exists q :: q in receipts && receipts[q].msg == id
                                               && jobs == old(jobs)[job := Runs.Job(id, q)]
      ensures acks == old(acks) || acks == old(acks)[row := id]
    {
      hide Reached, Handled, Runs.Apply, Matches, At;
      trace, s' := Pass(id, user, r, day, limit, s0, before, s, lane);
      o, trace, s' := Proceed(id, user, r, job, row, faults, s0, trace, s', lane);
    }

    /** What it means for the tables that a message is handled. */
    lemma Shown(s: Runs.State, id: MsgId)
      requires Matches(s) && Handled(s, id)
      ensures exists r :: r in receipts && receipts[r].msg == id && receipts[r].status != Received
                          && (receipts[r].status == Queued ==> exists j :: j in jobs && jobs[j].dedupe == id)
    {
      var r :| Runs.Started(s, r, id)
               && (s.receipts[r].status == Queued ==> Runs.HasJob(s, id) && Runs.HasAck(s, id));
    }

    /** A message without media gets a reply and nothing else. */
    method Unsupported(id: MsgId, user: User, faults: set<Statement>, ghost s: Runs.State, ghost lane: Runs.Lane)
      returns (o: Outcome, ghost trace: seq<Runs.Step>, ghost s': Runs.State)
      requires Matches(s) && Runs.Inv(s) && At(s, lane, id, user, Runs.Claimed)
      ensures Reached(s, trace, s') && Matches(s') && At(s', lane, id, user, Runs.Ended(o == Nil))
      ensures o == if Answering in faults then Err(Internal) else Nil
    {
      hide Reached;
      Start(s);
      if Answering in faults {
        trace, s' := Stop(id, user, s, [], s, lane);
        return Err(Internal), trace, s';
      }
      trace, s' := Then(s, [], s, Runs.NoMedia(lane));
      o := Nil;
    }

    /** A statement fails: the handler ends with an error. */
    ghost method Stop(id: MsgId, user: User, s0: Runs.State, before: seq<Runs.Step>, s: Runs.State, lane: Runs.Lane)
      returns (trace: seq<Runs.Step>, s': Runs.State)
      requires Reached(s0, before, s) && Matches(s) && lane in s.lanes && At(s, lane, id, user, s.lanes[lane].at)
      ensures Reached(s0, trace, s') && Matches(s') && At(s', lane, id, user, Runs.Ended(false))
      ensures s'.receipts == s.receipts && s'.jobs == s.jobs && s'.acks == s.acks
    {
      hide Reached;
      trace, s' := Then(s0, before, s, Runs.Fail(lane));
    }

    /** GetOrCreateReceiptForProviderMessage: two statements, one receipt, of this user or none. */
    method Register(id: MsgId, user: User, newId: ReceiptId, faults: set<Statement>, ghost s: Runs.State,
                    ghost lane: Runs.Lane)
      returns (o: Outcome, r: ReceiptId, created: bool, ghost trace: seq<Runs.Step>, ghost s': Runs.State)
      requires Matches(s) && Runs.Inv(s) && At(s, lane, id, user, Runs.Claimed)
      requires newId !in s.receiptsEver && newId !in receipts
      modifies this`receipts
      ensures Reached(s, trace, s') && Matches(s')
      ensures o == Nil ==>
                && (created <==> !Runs.HasReceipt(s, id))
                && receipts == (if created then old(receipts)[newId := Runs.Receipt(id, user, Received)]
                                else old(receipts))
                && r in receipts && receipts[r].msg == id && receipts[r].user == user && (created ==> r == newId)
                && (forall q :: q in receipts && receipts[q].msg == id ==> q == r)
                && At(s', lane, id, user, Runs.Loaded(created, r, receipts[r].status))
      ensures o != Nil ==>
                At(s', lane, id, user, Runs.Ended(false)) && (Runs.HasReceipt(s, id) ==> receipts == old(receipts))
      ensures faults !! {Inserting, Loading} ==> o == if Foreign(s, id, user) then Err(Conflict) else Nil
    {
      hide Reached, Runs.Apply;
      Start(s);
      r, created := newId, false;
      if Inserting in faults {
        trace, s' := Stop(id, user, s, [], s, lane);
        return Err(Internal), r, created, trace, s';
      }
      created, trace, s' := Insert(id, user, newId, s, lane);
      assert Runs.HasReceipt(s', id) by { if created { assert newId in s'.receipts; } }
      if Loading in faults {
        trace, s' := Stop(id, user, s, trace, s', lane);
        return Err(Internal), r, created, trace, s';
      }
      o, r, trace, s' := Load(id, user, newId, created, s, trace, s', lane);
    }

    method Insert(id: MsgId, user: User, newId: ReceiptId, ghost s: Runs.State, ghost lane: Runs.Lane)
      returns (created: bool, ghost trace: seq<Runs.Step>, ghost s': Runs.State)
      requires Matches(s) && Runs.Inv(s) && At(s, lane, id, user, Runs.Claimed)
      requires newId !in s.receiptsEver && newId !in receipts
      modifies this`receipts
      ensures Reached(s, trace, s') && Matches(s') && At(s', lane, id, user, Runs.Inserted(created, newId))
      ensures created <==> !Runs.HasReceipt(s, id)
      ensures receipts == if created then old(receipts)[newId := Runs.Receipt(id, user, Received)] else old(receipts)
    {
      hide Reached;
      Start(s);
      created := InsertReceipt(id, user, newId);
      trace, s' := Then(s, [], s, Runs.Insert(lane, newId));
    }

    method Load(id: MsgId, user: User, newId: ReceiptId, created: bool,
                ghost s0: Runs.State, ghost before: seq<Runs.Step>, ghost s: Runs.State, ghost lane: Runs.Lane)
      returns (o: Outcome, r: ReceiptId, ghost trace: seq<Runs.Step>, ghost s': Runs.State)
      requires Reached(s0, before, s) && Matches(s) && At(s, lane, id, user, Runs.Inserted(created, newId))
      requires Runs.HasReceipt(s, id)
      requires (created ==> newId in receipts && receipts[newId] == Runs.Receipt(id, user, Received))
      ensures Reached(s0, trace, s') && Matches(s')
      ensures r in receipts && receipts[r].msg == id && (created ==> r == newId)
      ensures forall q :: q in receipts && receipts[q].msg == id ==> q == r
      ensures o == if receipts[r].user != user then Err(Conflict) else Nil
      ensures At(s', lane, id, user,
                 if o == Nil then Runs.Loaded(created, r, receipts[r].status) else Runs.Ended(false))
    {
      hide Reached;
      Unique(s0, before, s, id);
      var found := FindReceipt(id);
      trace, s' := Then(s0, before, s, Runs.Load(lane, found));
      r := found.value;
      o := if receipts[r].user != user then Err(Conflict) else Nil;
    }

    /** The creator's part: the charge, and what follows from it. */
    method Admit(id: MsgId, user: User, r: ReceiptId, job: Runs.JobId, row: Runs.RowId, day: Runs.Day, limit: nat,
                 faults: set<Statement>, ghost s0: Runs.State, ghost before: seq<Runs.Step>, ghost s: Runs.State,
                 ghost lane: Runs.Lane)
      returns (o: Outcome, ghost trace: seq<Runs.Step>, ghost s': Runs.State)
      requires Reached(s0, before, s) && Matches(s) && At(s, lane, id, user, Runs.Loaded(true, r, Received))
      requires r in receipts && receipts[r] == Runs.Receipt(id, user, Received) && job !in jobs && row !in acks
      modifies this`receipts, this`jobs, this`acks, this`usage
      ensures Reached(s0, trace, s') && Matches(s') && At(s', lane, id, user, Runs.Ended(o == Nil))
      ensures faults == {} ==> o == Nil
      ensures faults == {Charging} ==>
                o != Nil && receipts == old(receipts) - {r} && jobs == old(jobs) && usage == old(usage)
      ensures o == Nil ==> Handled(s', id)
      ensures o == Nil || faults == {Answering} ==>
                var count := Runs.Count(old(usage), Runs.Counter(user, day)) + 1;
                && usage == old(usage)[Runs.Counter(user, day) := count]
                && receipts == old(receipts)[r := Runs.Receipt(id, user, Verdict(count, limit))]
      ensures faults == {Answering} ==>
                (o == Nil <==> Verdict(Runs.Count(old(usage), Runs.Counter(user, day)) + 1, limit) == Queued)
      ensures o == Nil && Verdict(Runs.Count(old(usage), Runs.Counter(user, day)) + 1, limit) == Queued ==>
                exists a :: a in acks && acks[a] == id
      ensures jobs == old(jobs)
              || (r in receipts && receipts[r].msg == id && jobs == old(jobs)[job := Runs.Job(id, r)])
      ensures acks == old(acks) || acks == old(acks)[row := id]
    {
      hide Reached, Handled, Runs.Apply, Matches, At;
      if Charging in faults {
        trace, s' := Undo(id, user, r, day, limit, faults, s0, before, s, lane);
        return Err(Internal), trace, s';
      }
      var count;
      count, trace, s' := Charge(id, user, r, day, limit, s0, before, s, lane);
      if limit > 0 && count > limit {
        o, trace, s' := Refuse(id, user, r, faults, s0, trace, s', lane);
      } else {
        o, trace, s' := Proceed(id, user, r, job, row, faults, s0, trace, s', lane);
      }
    }

    method Charge(id: MsgId, user: User, r: ReceiptId, day: Runs.Day, limit: nat,
                  ghost s0: Runs.State, ghost before: seq<Runs.Step>, ghost s: Runs.State, ghost lane: Runs.Lane)
      returns (count: nat, ghost trace: seq<Runs.Step>, ghost s': Runs.State)
      requires Reached(s0, before, s) && Matches(s) && At(s, lane, id, user, Runs.Loaded(true, r, Received))
      modifies this`usage
      ensures Reached(s0, trace, s') && Matches(s')
      ensures count == Runs.Count(old(usage), Runs.Counter(user, day)) + 1
      ensures usage == old(usage)[Runs.Counter(user, day) := count]
      ensures At(s', lane, id, user,
                 if limit > 0 && count > limit then Runs.Progress.Refusing(r) else Runs.Admitted(r, Received))
    {
      hide Reached;
      count := IncrementUsage(Runs.Counter(user, day));
      trace, s' := Then(s0, before, s, Runs.Charge(lane, day, false, limit));
    }

    /** After a failed charge the registration is removed; the error of the removal is dropped. */
    method Undo(id: MsgId, user: User, r: ReceiptId, day: Runs.Day, limit: nat, faults: set<Statement>,
                ghost s0: Runs.State, ghost before: seq<Runs.Step>, ghost s: Runs.State, ghost lane: Runs.Lane)
      returns (ghost trace: seq<Runs.Step>, ghost s': Runs.State)
      requires Reached(s0, before, s) && Matches(s) && At(s, lane, id, user, Runs.Loaded(true, r, Received))
      requires r in receipts && receipts[r] == Runs.Receipt(id, user, Received)
      modifies this`receipts
      ensures Reached(s0, trace, s') && Matches(s') && At(s', lane, id, user, Runs.Ended(false))
      ensures receipts == if Deleting in faults then old(receipts) else old(receipts) - {r}
    {
      hide Reached;
      trace, s' := Then(s0, before, s, Runs.Charge(lane, day, true, limit));
      if Deleting in faults {
        trace, s' := Stop(id, user, s0, trace, s', lane);
      } else {
        DeleteReceivedReceipt(r);
        trace, s' := Then(s0, trace, s', Runs.Undo(lane));
      }
    }

    /** Past the limit: the receipt fails for good, and the user is told. */
    method Refuse(id: MsgId, user: User, r: ReceiptId, faults: set<Statement>,
                  ghost s0: Runs.State, ghost before: seq<Runs.Step>, ghost s: Runs.State, ghost lane: Runs.Lane)
      returns (o: Outcome, ghost trace: seq<Runs.Step>, ghost s': Runs.State)
      requires Reached(s0, before, s) && Matches(s) && At(s, lane, id, user, Runs.Progress.Refusing(r))
      requires r in receipts && receipts[r] == Runs.Receipt(id, user, Received)
      modifies this`receipts
      ensures Reached(s0, trace, s') && Matches(s') && At(s', lane, id, user, Runs.Ended(o == Nil))
      ensures o == Nil <==> faults !! {Refusing, Answering}
      ensures o == Nil ==> Handled(s', id)
      ensures receipts == if Refusing in faults then old(receipts)
                          else old(receipts)[r := Runs.Receipt(id, user, FailedPermanent)]
    {
      hide Reached;
      if Refusing in faults {
        trace, s' := Stop(id, user, s0, before, s, lane);
        return Err(Internal), trace, s';
      }
      o := TransitionReceipt(r, Received, FailedPermanent);
      trace, s' := Then(s0, before, s, Runs.Refuse(lane));
      assert Runs.Started(s', r, id);
      if Answering in faults {
        trace, s' := Stop(id, user, s0, trace, s', lane);
        o := Err(Internal);
      }
    }

    /** Not the creator: the charge is skipped. */
    ghost method Pass(id: MsgId, user: User, r: ReceiptId, day: Runs.Day, limit: nat,
                      s0: Runs.State, before: seq<Runs.Step>, s: Runs.State, lane: Runs.Lane)
      returns (trace: seq<Runs.Step>, s': Runs.State)
      requires Reached(s0, before, s) && Matches(s) && r in receipts
      requires At(s, lane, id, user, Runs.Loaded(false, r, receipts[r].status))
      ensures Reached(s0, trace, s') && Matches(s') && At(s', lane, id, user, Runs.Admitted(r, receipts[r].status))
    {
      hide Reached;
      trace, s' := Then(s0, before, s, Runs.Charge(lane, day, false, limit));
    }

    /** Queues a received receipt, repairs a missing job and the acknowledgement. */
    method Proceed(id: MsgId, user: User, r: ReceiptId, job: Runs.JobId, row: Runs.RowId, faults: set<Statement>,
                   ghost s0: Runs.State, ghost before: seq<Runs.Step>, ghost s: Runs.State, ghost lane: Runs.Lane)
      returns (o: Outcome, ghost trace: seq<Runs.Step>, ghost s': Runs.State)
      requires Reached(s0, before, s) && Matches(s) && r in receipts && receipts[r].msg == id && job !in jobs
      requires row !in acks
      requires At(s, lane, id, user, Runs.Admitted(r, receipts[r].status))
      modifies this`receipts, this`jobs, this`acks
      ensures Reached(s0, trace, s') && Matches(s') && At(s', lane, id, user, Runs.Ended(o == Nil))
      ensures faults !! {Queueing, Enqueueing, Acknowledging} ==> o == Nil
      ensures o == Nil ==> exists a :: a in acks && acks[a] == id
      ensures r in receipts && receipts[r].msg == id
      ensures jobs == old(jobs) || jobs == old(jobs)[job := Runs.Job(id, r)]
      ensures acks == old(acks) || acks == old(acks)[row := id]
      ensures o == Nil ==> Handled(s', id) && receipts == old(receipts)[r := QueuedIfNew(old(receipts)[r], id)]
    {
      hide Reached, Handled, Runs.Apply, Matches;
      var status := receipts[r].status;
      if status == Received && Queueing in faults {
        trace, s' := Stop(id, user, s0, before, s, lane);
        return Err(Internal), trace, s';
      }
      trace, s' := MoveOn(id, user, r, s0, before, s, lane);
      if status == Received || status == Queued {
        if Enqueueing in faults {
          trace, s' := Stop(id, user, s0, trace, s', lane);
          return Err(Internal), trace, s';
        }
        trace, s' := Submit(id, user, r, job, s0, trace, s', lane);
      }
      if Acknowledging in faults {
        trace, s' := Stop(id, user, s0, trace, s', lane);
        return Err(Internal), trace, s';
      }
      trace, s' := Acknowledge(id, user, r, row, s0, trace, s', lane);
      o := Nil;
    }

    method MoveOn(id: MsgId, user: User, r: ReceiptId,
                  ghost s0: Runs.State, ghost before: seq<Runs.Step>, ghost s: Runs.State, ghost lane: Runs.Lane)
      returns (ghost trace: seq<Runs.Step>, ghost s': Runs.State)
      requires Reached(s0, before, s) && Matches(s) && r in receipts && receipts[r].msg == id
      requires At(s, lane, id, user, Runs.Admitted(r, receipts[r].status))
      modifies this`receipts
      ensures Reached(s0, trace, s') && Matches(s') && Runs.Started(s', r, id)
      ensures receipts == old(receipts)[r := QueuedIfNew(old(receipts)[r], id)]
      ensures At(s', lane, id, user,
                 if old(receipts)[r].status in {Received, Queued} then Runs.Progress.Queueing(r) else Runs.Acking)
    {
      hide Reached;
      if receipts[r].status == Received {
        var moved := TransitionReceipt(r, Received, Queued);
      }
      trace, s' := Then(s0, before, s, Runs.Queue(lane));
    }

    method Submit(id: MsgId, user: User, r: ReceiptId, job: Runs.JobId,
                  ghost s0: Runs.State, ghost before: seq<Runs.Step>, ghost s: Runs.State, ghost lane: Runs.Lane)
      returns (ghost trace: seq<Runs.Step>, ghost s': Runs.State)
      requires Reached(s0, before, s) && Matches(s) && At(s, lane, id, user, Runs.Progress.Queueing(r)) && job !in jobs
      modifies this`jobs
      ensures Reached(s0, trace, s') && Matches(s') && At(s', lane, id, user, Runs.Acking) && Runs.HasJob(s', id)
      ensures s'.receipts == s.receipts && (jobs == old(jobs) || jobs == old(jobs)[job := Runs.Job(id, r)])
    {
      hide Reached;
      EnqueueJob(job, id, r);
      trace, s' := Then(s0, before, s, Runs.Enqueue(lane, job));
      assert Runs.HasJob(s', id) by { if !Runs.HasJob(s, id) { assert job in s'.jobs; } }
    }

    method Acknowledge(id: MsgId, user: User, r: ReceiptId, row: Runs.RowId,
                       ghost s0: Runs.State, ghost before: seq<Runs.Step>, ghost s: Runs.State, ghost lane: Runs.Lane)
      returns (ghost trace: seq<Runs.Step>, ghost s': Runs.State)
      requires Reached(s0, before, s) && Matches(s) && At(s, lane, id, user, Runs.Acking) && row !in acks
      requires Runs.Started(s, r, id) && (receipts[r].status == Queued ==> Runs.HasJob(s, id))
      modifies this`acks
      ensures Reached(s0, trace, s') && Matches(s') && At(s', lane, id, user, Runs.Ended(true)) && Handled(s', id)
      ensures exists a :: a in acks && acks[a] == id
      ensures acks == old(acks) || acks == old(acks)[row := id]
    {
      hide Reached;
      ReplyAck(row, id);
      trace, s' := Then(s0, before, s, Runs.Ack(lane, row));
      assert Runs.HasAck(s', id) by { if !Runs.HasAck(s, id) { assert row in s'.acks; } }
      assert Runs.HasJob(s', id) <==> Runs.HasJob(s, id);
      assert Runs.Started(s', r, id);
    }
  }
}
