/**
The outbox tables and the statements of the producer and the sender on them. The provider cannot
recognise a repeated request, so a row is reserved before the call and is never reserved twice.
*/
module Outbox {
  import opened Domain

  type RowId = nat
  type JobId = nat
  type User = nat
  type Key = nat     // an idempotency key
  type Period = nat  // a calendar month

  datatype RowStatus = Waiting | Sending | Sent | Failed | Suppressed | Ambiguous

  datatype Row = Row(key: Key, user: User, ephemeral: bool, status: RowStatus, attempts: nat)

  /** A queue job of kind outbound_send; its dedupe key is the outbox row it names. */
  datatype SendJob = SendJob(outbound: RowId, user: User)

  /** The tables the sender touches. The two counters are global, per calendar month. */
  datatype Tables = Tables(
    rows: map<RowId, Row>, jobs: map<JobId, SendJob>, users: map<User, UserStatus>,
    attempted: map<Period, nat>, delivered: map<Period, nat>)

  function Count(m: map<Period, nat>, p: Period): nat {
    if p in m then m[p] else 0
  }

  ghost predicate KeyTaken(t: Tables, key: Key) {
    exists id :: id in t.rows && t.rows[id].key == key
  }

  ghost predicate JobTaken(t: Tables, id: RowId) {
    exists j :: j in t.jobs && t.jobs[j].outbound == id
  }

  /** INSERT ... ON CONFLICT (idempotency_key) DO NOTHING. */
  ghost function Inserted(t: Tables, id: RowId, key: Key, user: User, ephemeral: bool): Tables {
    if KeyTaken(t, key) then t else t.(rows := t.rows[id := Row(key, user, ephemeral, Waiting, 0)])
  }

  ghost function JobInserted(t: Tables, job: JobId, id: RowId, user: User): Tables {
    if JobTaken(t, id) then t else t.(jobs := t.jobs[job := SendJob(id, user)])
  }

  predicate WithinQuota(t: Tables, period: Period, limit: nat) {
    limit == 0 || Count(t.attempted, period) < limit
  }

  /** The transaction that reserves one provider call. */
  predicate Reservable(t: Tables, id: RowId, period: Period, limit: nat) {
    id in t.rows && t.rows[id].status == Waiting && WithinQuota(t, period, limit)
  }

  function Reserved(t: Tables, id: RowId, period: Period, limit: nat): Tables {
    if id !in t.rows || t.rows[id].status != Waiting then t
    else if WithinQuota(t, period, limit) then
      t.(rows := t.rows[id := t.rows[id].(status := Sending, attempts := t.rows[id].attempts + 1)],
         attempted := t.attempted[period := Count(t.attempted, period) + 1])
    else t.(rows := t.rows[id := t.rows[id].(status := Suppressed)])
  }

  predicate Completable(t: Tables, id: RowId) {
    id in t.rows && t.rows[id].status == Sending
  }

  /** The transaction that records a provider receipt and charges the success counter. */
  function Completed(t: Tables, id: RowId, job: JobId, period: Period): Tables {
    if !Completable(t, id) then t
    else
      var t1 := t.(delivered := t.delivered[period := Count(t.delivered, period) + 1]);
      if t.rows[id].ephemeral then t1.(rows := t.rows - {id}, jobs := t.jobs - {job})
      else t1.(rows := t.rows[id := t.rows[id].(status := Sent)])
  }

  /** UPDATE without a status guard. */
  function Marked(t: Tables, id: RowId, status: RowStatus): Tables {
    if id in t.rows then t.(rows := t.rows[id := t.rows[id].(status := status)]) else t
  }

  function Purged(t: Tables, id: RowId, job: JobId): Tables {
    t.(rows := t.rows - {id}, jobs := t.jobs - {job})
  }

  /** What account deletion does to these tables. */
  function AccountPurged(t: Tables, user: User): Tables {
    t.(rows := map id | id in t.rows && t.rows[id].user != user :: t.rows[id],
       jobs := map j | j in t.jobs && t.jobs[j].user != user :: t.jobs[j],
       users := t.users[user := UserDeleted])
  }
}

/**
Every interleaving of producers, sender lanes, lease reclaims, account deletions and crashes. A lane
handles a job by the statements of `Sender.handleLocked`; a step executes one of them. A lane that is
not in `lanes` is idle, and a crash or a store error makes a lane idle at any point.
*/
module SenderRuns {
  import opened Domain
  import opened Outbox

  type Lane = nat

  datatype SendResult = Delivered | Uncertain | Refused

  /** The last statement a handler issues before it returns. */
  datatype Closing = Purge | Mark(status: RowStatus) | DropJob

  /** Where a lane is inside handleLocked. */
  datatype Pc =
    | Loaded(id: RowId, job: JobId, user: User, ephemeral: bool)
    | Cleared(id: RowId, job: JobId, user: User, ephemeral: bool)
    | Calling(id: RowId, job: JobId, user: User, ephemeral: bool, period: Period)
    | Returned(id: RowId, job: JobId, user: User, ephemeral: bool, period: Period, result: SendResult)
    | Closed(id: RowId, job: JobId, user: User, closing: Closing)

  /** `created` maps every outbox row ever inserted to its key, `begun` to the month it was reserved in, `answers` to
      what the provider answered; `recorded` are the rows whose lane came to write the answer down. */
  datatype State = State(
    t: Tables, lanes: map<Lane, Pc>, limit: nat,
    created: map<RowId, Key>, begun: map<RowId, Period>,
    sends: multiset<RowId>, charged: multiset<RowId>, purged: set<RowId>,
    answers: map<RowId, SendResult>, recorded: set<RowId>)

  datatype Step =
    | Insert(newId: RowId, key: Key, user: User, ephemeral: bool)
    | InsertJob(newJob: JobId, id: RowId, user: User)
    | Load(lane: Lane, job: JobId, id: RowId, user: User)
    | Check(lane: Lane, enabled: bool)
    | Reserve(lane: Lane, period: Period)
    | Send(lane: Lane, result: SendResult)
    | Record(lane: Lane)
    | Close(lane: Lane)
    | Crash(lane: Lane)
    | DeleteAccount(user: User)
    | SetUser(user: User, status: UserStatus)

  function Init(limit: nat, users: map<User, UserStatus>): State {
    State(Tables(map[], map[], users, map[], map[]), map[], limit, map[], map[], multiset{}, multiset{}, {},
          map[], {})
  }

  predicate Enabled(s: State, step: Step) {
    match step
    case Insert(newId, _, _, _) => newId !in s.created
    case InsertJob(newJob, _, _) => newJob !in s.t.jobs
    case Load(lane, _, _, _) => lane !in s.lanes
    case Check(lane, _) => lane in s.lanes && s.lanes[lane].Loaded?
    case Reserve(lane, _) => lane in s.lanes && s.lanes[lane].Cleared?
    case Send(lane, _) => lane in s.lanes && s.lanes[lane].Calling?
    case Record(lane) => lane in s.lanes && s.lanes[lane].Returned?
    case Close(lane) => lane in s.lanes && s.lanes[lane].Closed?
    case Crash(_) => true
    case DeleteAccount(_) => true
    case SetUser(_, _) => true
  }

  /** GetOutbound and the switch on the status it found. */
  function AfterLoad(t: Tables, job: JobId, id: RowId, user: User): Option<Pc> {
    if id !in t.rows then Some(Closed(id, job, user, DropJob))
    else
      var row := t.rows[id];
      match row.status
      case Waiting => Some(Loaded(id, job, user, row.ephemeral))
      case Sending => Some(Closed(id, job, user, if row.ephemeral then Purge else Mark(Ambiguous)))
      case _ => None
  }

  /** GetUser, the deleted-user rule and the kill switch. */
  function AfterCheck(t: Tables, pc: Pc, enabled: bool): Pc
    requires pc.Loaded?
  {
    if pc.user !in t.users || (t.users[pc.user] == UserDeleted && !pc.ephemeral)
    then Closed(pc.id, pc.job, pc.user, Purge)
    else if !enabled then Closed(pc.id, pc.job, pc.user, if pc.ephemeral then Purge else Mark(Suppressed))
    else Cleared(pc.id, pc.job, pc.user, pc.ephemeral)
  }

  function AfterReserve(t: Tables, pc: Pc, period: Period, limit: nat): Option<Pc>
    requires pc.Cleared?
  {
    if Reservable(t, pc.id, period, limit) then Some(Calling(pc.id, pc.job, pc.user, pc.ephemeral, period))
    else if pc.id in t.rows && pc.ephemeral then Some(Closed(pc.id, pc.job, pc.user, Purge))
    else None
  }

  function WithLane(lanes: map<Lane, Pc>, lane: Lane, pc: Option<Pc>): map<Lane, Pc> {
    if pc.Some? then lanes[lane := pc.value] else lanes - {lane}
  }

  /** The purge history follows from the rows a statement removed. */
  function Commit(s: State, t: Tables): State {
    s.(t := t, purged := s.purged + (s.t.rows.Keys - t.rows.Keys))
  }

  function AfterClose(t: Tables, pc: Pc): Tables
    requires pc.Closed?
  {
    match pc.closing
    case Purge => Purged(t, pc.id, pc.job)
    case Mark(status) => Marked(t, pc.id, status)
    case DropJob => t.(jobs := t.jobs - {pc.job})
  }

  function AfterRecord(t: Tables, pc: Pc): Tables
    requires pc.Returned?
  {
    match pc.result
    case Delivered => Completed(t, pc.id, pc.job, pc.period)
    case Uncertain => if pc.ephemeral then Purged(t, pc.id, pc.job) else Marked(t, pc.id, Ambiguous)
    case Refused => if pc.ephemeral then Purged(t, pc.id, pc.job) else Marked(t, pc.id, Failed)
  }

  ghost function Apply(s: State, step: Step): State
    requires Enabled(s, step)
  {
    match step
    case Insert(id, key, user, ephemeral) =>
      var t := Inserted(s.t, id, key, user, ephemeral);
      s.(t := t, created := if id in t.rows then s.created[id := key] else s.created)
    case InsertJob(job, id, user) => s.(t := JobInserted(s.t, job, id, user))
    case Load(lane, job, id, user) => s.(lanes := WithLane(s.lanes, lane, AfterLoad(s.t, job, id, user)))
    case Check(lane, enabled) => s.(lanes := s.lanes[lane := AfterCheck(s.t, s.lanes[lane], enabled)])
    case Reserve(lane, period) =>
      var pc := s.lanes[lane];
      s.(t := Reserved(s.t, pc.id, period, s.limit),
         lanes := WithLane(s.lanes, lane, AfterReserve(s.t, pc, period, s.limit)),
         begun := if Reservable(s.t, pc.id, period, s.limit) then s.begun[pc.id := period] else s.begun)
    case Send(lane, result) =>
      var pc := s.lanes[lane];
      s.(sends := s.sends + multiset{pc.id}, answers := s.answers[pc.id := result],
         lanes := s.lanes[lane := Returned(pc.id, pc.job, pc.user, pc.ephemeral, pc.period, result)])
    case Record(lane) =>
      var pc := s.lanes[lane];
      Commit(s, AfterRecord(s.t, pc))
      .(lanes := s.lanes - {lane}, recorded := s.recorded + {pc.id},
        charged := if pc.result == Delivered && Completable(s.t, pc.id) then s.charged + multiset{pc.id} else s.charged)
    case Close(lane) => Commit(s, AfterClose(s.t, s.lanes[lane])).(lanes := s.lanes - {lane})
    case Crash(lane) => s.(lanes := s.lanes - {lane})
    case DeleteAccount(user) => Commit(s, AccountPurged(s.t, user))
    case SetUser(user, status) => s.(t := s.t.(users := s.t.users[user := status]))
  }

  ghost predicate ValidRun(s: State, steps: seq<Step>)
    decreases steps
  {
    steps == [] || (Enabled(s, steps[0]) && ValidRun(Apply(s, steps[0]), steps[1..]))
  }

  ghost function Run(s: State, steps: seq<Step>): State
    requires ValidRun(s, steps)
    decreases steps
  {
    if steps == [] then s else Run(Apply(s, steps[0]), steps[1..])
  }

  lemma {:induction false} RunAppend(s: State, steps: seq<Step>, last: Step)
    requires ValidRun(s, steps) && Enabled(Run(s, steps), last)
    ensures ValidRun(s, steps + [last]) && Run(s, steps + [last]) == Apply(Run(s, steps), last)
    decreases steps
  {
    if steps == [] {
      assert (steps + [last])[1..] == [];
    } else {
      RunAppend(Apply(s, steps[0]), steps[1..], last);
      assert (steps + [last])[1..] == steps[1..] + [last];
    }
  }

  // ---------------------------------------------------------------- what every step keeps

  /** Rows and their history: keys are unique, and a row is gone exactly if it was purged. */
  ghost predicate RowsOk(s: State) {
    && (forall id :: id in s.t.rows ==> id in s.created && s.created[id] == s.t.rows[id].key)
    && (forall i, j :: i in s.t.rows && j in s.t.rows && s.t.rows[i].key == s.t.rows[j].key ==> i == j)
    && (forall id :: id in s.created ==> (id in s.purged <==> id !in s.t.rows))
    && (forall id :: id in s.purged ==> id in s.created)
  }

  ghost predicate BegunOk(s: State) {
    && (forall id :: id in s.begun ==> id in s.created)
    && (forall id :: id in s.begun && id in s.t.rows ==> s.t.rows[id].status != Waiting)
    && (forall id :: id in s.sends ==> id in s.begun)
    && (forall id :: s.sends[id] <= 1)
    && (forall id :: s.charged[id] <= s.sends[id])
  }

  ghost predicate LanesOk(s: State) {
    && (forall l :: l in s.lanes && s.lanes[l].Calling? ==>
          var pc := s.lanes[l]; pc.id in s.begun && s.begun[pc.id] == pc.period && s.sends[pc.id] == 0)
    && (forall l :: l in s.lanes && s.lanes[l].Returned? ==>
          var pc := s.lanes[l];
          pc.id in s.begun && s.begun[pc.id] == pc.period && s.sends[pc.id] == 1 && s.charged[pc.id] == 0)
    && (forall l :: l in s.lanes && s.lanes[l].Closed? && s.lanes[l].closing.Mark? ==>
          s.lanes[l].closing.status in {Ambiguous, Suppressed})
  }

  predicate InFlight(pc: Pc) {
    pc.Calling? || pc.Returned?
  }

  /** No two lanes are around a provider call for the same row. */
  ghost predicate Exclusive(s: State) {
    forall l, m :: l in s.lanes && m in s.lanes && InFlight(s.lanes[l]) && InFlight(s.lanes[m])
                   && s.lanes[l].id == s.lanes[m].id
                   ==> l == m
  }

  ghost function BegunIn(s: State, p: Period): set<RowId> {
    set id | id in s.begun && s.begun[id] == p
  }

  ghost function SentIn(s: State, p: Period): set<RowId> {
    set id | id in s.begun && s.begun[id] == p && id in s.sends
  }

  ghost function ChargedIn(s: State, p: Period): set<RowId> {
    set id | id in s.begun && s.begun[id] == p && id in s.charged
  }

  ghost predicate QuotaOk(s: State) {
    && (forall p :: |BegunIn(s, p)| == Count(s.t.attempted, p))
    && (forall p :: |ChargedIn(s, p)| == Count(s.t.delivered, p))
    && (s.limit > 0 ==> forall p :: Count(s.t.attempted, p) <= s.limit)
  }

  ghost predicate Inv(s: State) {
    RowsOk(s) && BegunOk(s) && LanesOk(s) && Exclusive(s) && QuotaOk(s)
  }

  /** Steps that neither reserve, send nor charge leave the quota sets alone. */
  lemma QuotaUntouched(s: State, s': State)
    requires QuotaOk(s) && s'.begun == s.begun && s'.charged == s.charged && s'.limit == s.limit
    requires s'.t.attempted == s.t.attempted && s'.t.delivered == s.t.delivered
    ensures QuotaOk(s')
  {
    forall p
      ensures BegunIn(s', p) == BegunIn(s, p) && ChargedIn(s', p) == ChargedIn(s, p)
    {
    }
  }

  /** A lane moves to a point outside a provider call, or becomes idle. */
  lemma LaneMoves(s: State, s': State, lane: Lane, pc: Option<Pc>)
    requires Inv(s) && s' == s.(lanes := WithLane(s.lanes, lane, pc))
    requires pc.Some? ==> !InFlight(pc.value)
    requires pc.Some? && pc.value.Closed? && pc.value.closing.Mark? ==>
              pc.value.closing.status in {Ambiguous, Suppressed}
    ensures Inv(s')
  {
    QuotaUntouched(s, s');
  }

  /** Rows are deleted or keep their key, and none becomes queued. */
  ghost predicate OnlyCloses(t: Tables, t': Tables) {
    && t'.rows.Keys <= t.rows.Keys
    && forall id :: id in t'.rows ==>
         && id in t.rows && t'.rows[id].key == t.rows[id].key
         && (t'.rows[id].status == t.rows[id].status || t'.rows[id].status != Waiting)
  }

  lemma RowsClose(s: State, s': State)
    requires RowsOk(s) && BegunOk(s)
    requires OnlyCloses(s.t, s'.t)
    requires s'.created == s.created && s'.begun == s.begun && s'.sends == s.sends
    requires s'.purged == s.purged + (s.t.rows.Keys - s'.t.rows.Keys)
    requires forall id :: s'.charged[id] <= s'.sends[id]
    ensures RowsOk(s') && BegunOk(s')
  {
  }

  lemma InsertKeeps(s: State, step: Step)
    requires Inv(s) && Enabled(s, step) && step.Insert?
    ensures Inv(Apply(s, step))
  {
    hide QuotaOk;
    var s' := Apply(s, step);
    QuotaUntouched(s, s');
    InsertRows(s, step);
    assert BegunOk(s');
  }

  lemma InsertRows(s: State, step: Step)
    requires RowsOk(s) && Enabled(s, step) && step.Insert?
    ensures RowsOk(Apply(s, step))
  {
  }

  /** A statement that leaves the outbox rows and the counters alone. */
  lemma RowsUntouched(s: State, s': State)
    requires Inv(s) && s' == s.(t := s'.t) && s'.t.rows == s.t.rows
    requires s'.t.attempted == s.t.attempted && s'.t.delivered == s.t.delivered
    ensures Inv(s')
  {
    QuotaUntouched(s, s');
  }

  lemma LaneStepKeeps(s: State, step: Step)
    requires Inv(s) && Enabled(s, step) && (step.Load? || step.Check? || step.Crash?)
    ensures Inv(Apply(s, step))
  {
    var s' := Apply(s, step);
    match step
    case Load(lane, job, id, user) => LaneMoves(s, s', lane, AfterLoad(s.t, job, id, user));
    case Check(lane, enabled) => LaneMoves(s, s', lane, Some(AfterCheck(s.t, s.lanes[lane], enabled)));
    case Crash(lane) => LaneMoves(s, s', lane, None);
  }

  lemma ReserveKeeps(s: State, step: Step)
    requires Inv(s) && Enabled(s, step) && step.Reserve?
    ensures Inv(Apply(s, step))
  {
    var s' := Apply(s, step);
    var pc := s.lanes[step.lane];
    if Reservable(s.t, pc.id, step.period, s.limit) {
      ReserveGranted(s, s', step.lane, step.period);
    } else {
      var s1 := s.(t := s'.t);
      ReserveDenied(s, pc.id, step.period);
      RowsClose(s, s1);
      QuotaUntouched(s, s1);
      LaneMoves(s1, s', step.lane, AfterReserve(s.t, pc, step.period, s.limit));
    }
  }

  lemma ReserveDenied(s: State, id: RowId, period: Period)
    requires !Reservable(s.t, id, period, s.limit)
    ensures var t' := Reserved(s.t, id, period, s.limit);
            OnlyCloses(s.t, t') && t'.rows.Keys == s.t.rows.Keys
            && t'.attempted == s.t.attempted && t'.delivered == s.t.delivered
  {
  }

  lemma ReserveGranted(s: State, s': State, lane: Lane, period: Period)
    requires Inv(s) && lane in s.lanes && s.lanes[lane].Cleared?
    requires s' == Apply(s, Reserve(lane, period)) && Reservable(s.t, s.lanes[lane].id, period, s.limit)
    ensures Inv(s')
  {
    var id := s.lanes[lane].id;
    assert id in s.t.rows && s.t.rows[id].status == Waiting;
    ReserveLanes(s, s', lane, s'.lanes[lane]);
    ReserveQuota(s, s', id, period);
    ReserveRows(s, s', id, period);
  }

  lemma ReserveLanes(s: State, s': State, lane: Lane, pc: Pc)
    requires LanesOk(s) && Exclusive(s) && BegunOk(s) && pc.Calling? && pc.id !in s.begun
    requires s'.lanes == s.lanes[lane := pc] && s'.begun == s.begun[pc.id := pc.period]
    requires s'.sends == s.sends && s'.charged == s.charged
    ensures LanesOk(s') && Exclusive(s')
  {
    assert pc.id !in s.sends;
  }

  lemma ReserveQuota(s: State, s': State, id: RowId, period: Period)
    requires QuotaOk(s) && BegunOk(s) && id !in s.begun && WithinQuota(s.t, period, s.limit)
    requires s'.begun == s.begun[id := period] && s'.charged == s.charged && s'.limit == s.limit
    requires s'.t.attempted == s.t.attempted[period := Count(s.t.attempted, period) + 1]
    requires s'.t.delivered == s.t.delivered
    ensures QuotaOk(s')
  {
    forall p
      ensures |BegunIn(s', p)| == Count(s'.t.attempted, p)
      ensures |ChargedIn(s', p)| == Count(s'.t.delivered, p)
      ensures s.limit > 0 ==> Count(s'.t.attempted, p) <= s.limit
    {
      ReserveSets(s, s', id, period, p);
      assert |BegunIn(s, p)| == Count(s.t.attempted, p);
      assert |ChargedIn(s, p)| == Count(s.t.delivered, p);
    }
  }

  lemma ReserveSets(s: State, s': State, id: RowId, period: Period, p: Period)
    requires BegunOk(s) && id !in s.begun && s'.begun == s.begun[id := period] && s'.charged == s.charged
    ensures |BegunIn(s', p)| == |BegunIn(s, p)| + if p == period then 1 else 0
    ensures ChargedIn(s', p) == ChargedIn(s, p)
  {
    if p == period {
      assert BegunIn(s', p) == BegunIn(s, p) + {id};
    } else {
      assert BegunIn(s', p) == BegunIn(s, p);
    }
    ReserveCharges(s, s', id, period, p);
  }

  lemma ReserveCharges(s: State, s': State, id: RowId, period: Period, p: Period)
    requires BegunOk(s) && id !in s.begun && s'.begun == s.begun[id := period] && s'.charged == s.charged
    ensures ChargedIn(s', p) == ChargedIn(s, p)
  {
    assert s.charged[id] <= s.sends[id] && id !in s.sends;
  }

  lemma ReserveRows(s: State, s': State, id: RowId, period: Period)
    requires RowsOk(s) && BegunOk(s) && id in s.t.rows && id !in s.begun && id in s'.t.rows
    requires s'.t.rows == s.t.rows[id := s'.t.rows[id]] && s'.t.rows[id].key == s.t.rows[id].key
    requires s'.t.rows[id].status == Sending
    requires s'.begun == s.begun[id := period] && s'.created == s.created && s'.purged == s.purged
    requires s'.sends == s.sends && s'.charged == s.charged
    ensures RowsOk(s') && BegunOk(s')
  {
  }

  lemma SendKeeps(s: State, step: Step)
    requires Inv(s) && Enabled(s, step) && step.Send?
    ensures Inv(Apply(s, step))
  {
    hide RowsOk, QuotaOk;
    QuotaUntouched(s, Apply(s, step));
    SameRows(s, Apply(s, step));
  }

  lemma CompletedCloses(t: Tables, id: RowId, job: JobId, period: Period)
    requires Completable(t, id)
    ensures var t' := Completed(t, id, job, period);
            && OnlyCloses(t, t') && t'.attempted == t.attempted
            && t'.delivered == t.delivered[period := Count(t.delivered, period) + 1]
  {
  }

  lemma RecordKeeps(s: State, step: Step)
    requires Inv(s) && Enabled(s, step) && step.Record?
    ensures Inv(Apply(s, step))
  {
    var pc := s.lanes[step.lane];
    if pc.result == Delivered && Completable(s.t, pc.id) {
      RecordDelivered(s, step.lane);
    } else {
      RecordFailed(s, step.lane);
    }
  }

  lemma RecordDelivered(s: State, lane: Lane)
    requires Inv(s) && lane in s.lanes && s.lanes[lane].Returned?
    requires s.lanes[lane].result == Delivered && Completable(s.t, s.lanes[lane].id)
    ensures Inv(Apply(s, Record(lane)))
  {
    hide RowsOk, QuotaOk, OnlyCloses;
    var pc := s.lanes[lane];
    var t' := Completed(s.t, pc.id, pc.job, pc.period);
    CompletedCloses(s.t, pc.id, pc.job, pc.period);
    var s1 := Commit(s, t'.(delivered := s.t.delivered));
    RowsClose(s, s1);
    QuotaUntouched(s, s1);
    var s' := Apply(s, Record(lane));
    assert s' == s1.(lanes := s.lanes - {lane}, charged := s.charged + multiset{pc.id},
                     t := s1.t.(delivered := t'.delivered), recorded := s.recorded + {pc.id});
    RecordCharge(s1, s', lane);
  }

  lemma RecordFailed(s: State, lane: Lane)
    requires Inv(s) && lane in s.lanes && s.lanes[lane].Returned?
    requires !(s.lanes[lane].result == Delivered && Completable(s.t, s.lanes[lane].id))
    ensures Inv(Apply(s, Record(lane)))
  {
    var pc := s.lanes[lane];
    var s1 := Commit(s, AfterRecord(s.t, pc)).(recorded := s.recorded + {pc.id});
    RowsClose(s, s1);
    QuotaUntouched(s, s1);
    LaneMoves(s1, Apply(s, Record(lane)), lane, None);
  }

  lemma RecordCharge(s: State, s': State, lane: Lane)
    requires Inv(s) && lane in s.lanes && s.lanes[lane].Returned?
    requires var pc := s.lanes[lane];
             s' == s.(lanes := s.lanes - {lane}, charged := s.charged + multiset{pc.id}, recorded := s'.recorded,
                      t := s.t.(delivered := s.t.delivered[pc.period := Count(s.t.delivered, pc.period) + 1]))
    ensures Inv(s')
  {
    hide RowsOk, QuotaOk;
    var pc := s.lanes[lane];
    RecordQuota(s, s', pc);
    assert RowsOk(s') by { SameRows(s, s'); }
    assert BegunOk(s');
    assert LanesOk(s') && Exclusive(s');
  }

  lemma SameRows(s: State, s': State)
    requires RowsOk(s) && s'.t.rows == s.t.rows && s'.created == s.created && s'.purged == s.purged
    ensures RowsOk(s')
  {
  }

  lemma RecordQuota(s: State, s': State, pc: Pc)
    requires QuotaOk(s) && pc.Returned? && pc.id in s.begun && s.begun[pc.id] == pc.period && s.charged[pc.id] == 0
    requires s'.begun == s.begun && s'.charged == s.charged + multiset{pc.id} && s'.limit == s.limit
    requires s'.t.attempted == s.t.attempted
    requires s'.t.delivered == s.t.delivered[pc.period := Count(s.t.delivered, pc.period) + 1]
    ensures QuotaOk(s')
  {
    forall p
      ensures |BegunIn(s', p)| == Count(s'.t.attempted, p)
      ensures |ChargedIn(s', p)| == Count(s'.t.delivered, p)
    {
      assert BegunIn(s', p) == BegunIn(s, p);
      if p == pc.period {
        assert ChargedIn(s', p) == ChargedIn(s, p) + {pc.id};
      } else {
        assert ChargedIn(s', p) == ChargedIn(s, p);
      }
      assert |ChargedIn(s, p)| == Count(s.t.delivered, p);
    }
  }

  lemma CloseKeeps(s: State, step: Step)
    requires Inv(s) && Enabled(s, step) && step.Close?
    ensures Inv(Apply(s, step))
  {
    hide RowsOk, QuotaOk, OnlyCloses, AfterClose;
    var s' := Apply(s, step);
    var s1 := s'.(lanes := s.lanes);
    CounterFree(s.t, s.lanes[step.lane]);
    CloseRows(s, s.lanes[step.lane]);
    RowsClose(s, s1);
    QuotaUntouched(s, s1);
    LaneMoves(s1, s', step.lane, None);
  }

  lemma CounterFree(t: Tables, pc: Pc)
    requires pc.Closed?
    ensures AfterClose(t, pc).attempted == t.attempted && AfterClose(t, pc).delivered == t.delivered
  {
  }

  lemma CloseRows(s: State, pc: Pc)
    requires pc.Closed? && (pc.closing.Mark? ==> pc.closing.status != Waiting)
    ensures OnlyCloses(s.t, AfterClose(s.t, pc))
  {
  }

  lemma DeleteAccountKeeps(s: State, step: Step)
    requires Inv(s) && Enabled(s, step) && step.DeleteAccount?
    ensures Inv(Apply(s, step))
  {
    RowsClose(s, Apply(s, step));
    QuotaUntouched(s, Apply(s, step));
  }

  lemma StepKeeps(s: State, step: Step)
    requires Inv(s) && Enabled(s, step)
    ensures Inv(Apply(s, step))
  {
    hide Inv;
    match step
    case Insert(_, _, _, _) => InsertKeeps(s, step);
    case InsertJob(_, _, _) => RowsUntouched(s, Apply(s, step));
    case SetUser(_, _) => RowsUntouched(s, Apply(s, step));
    case Load(_, _, _, _) => LaneStepKeeps(s, step);
    case Check(_, _) => LaneStepKeeps(s, step);
    case Crash(_) => LaneStepKeeps(s, step);
    case Reserve(_, _) => ReserveKeeps(s, step);
    case Send(_, _) => SendKeeps(s, step);
    case Record(_) => RecordKeeps(s, step);
    case Close(_) => CloseKeeps(s, step);
    case DeleteAccount(_) => DeleteAccountKeeps(s, step);
  }

  lemma {:induction false} RunKeeps(s: State, steps: seq<Step>)
    requires Inv(s) && ValidRun(s, steps)
    ensures Inv(Run(s, steps)) && Run(s, steps).limit == s.limit
    decreases steps
  {
    hide Enabled, Inv;
    if steps != [] {
      StepKeeps(s, steps[0]);
      RunKeeps(Apply(s, steps[0]), steps[1..]);
    }
  }

  lemma InitOk(limit: nat, users: map<User, UserStatus>)
    ensures Inv(Init(limit, users))
  {
    var s := Init(limit, users);
    forall p ensures BegunIn(s, p) == {} && ChargedIn(s, p) == {} {}
  }

  // ---------------------------------------------------------------- main results

  /** Provider.Send is called at most once per outbox row, ever, and at most once per idempotency key
      among the rows that were not purged; no lock and no lease is needed for this. */
  lemma SendAtMostOnce(limit: nat, users: map<User, UserStatus>, steps: seq<Step>)
    requires ValidRun(Init(limit, users), steps)
    ensures var s := Run(Init(limit, users), steps);
            && (forall id :: s.sends[id] <= 1)
            && (forall i :: i in s.sends ==> i in s.created)
            && (forall i, j :: i in s.sends && j in s.sends && i !in s.purged && j !in s.purged
                               && s.created[i] == s.created[j]
                               ==> i == j)
  {
    InitOk(limit, users);
    RunKeeps(Init(limit, users), steps);
  }

  /** Successful deliveries are charged once per row, never outnumber provider calls, which never outnumber
      reserved attempts, which stay within the monthly limit. */
  lemma QuotaSafety(limit: nat, users: map<User, UserStatus>, steps: seq<Step>, period: Period)
    requires ValidRun(Init(limit, users), steps)
    ensures var s := Run(Init(limit, users), steps);
            && (forall id :: s.charged[id] <= 1)
            && Count(s.t.delivered, period) == |ChargedIn(s, period)| <= |SentIn(s, period)|
            && |SentIn(s, period)| <= Count(s.t.attempted, period)
            && (limit > 0 ==> Count(s.t.attempted, period) <= limit)
  {
    InitOk(limit, users);
    RunKeeps(Init(limit, users), steps);
    var s := Run(Init(limit, users), steps);
    forall id ensures s.charged[id] <= 1 {
      assert s.charged[id] <= s.sends[id] <= 1;
    }
    SubsetSize(ChargedIn(s, period), SentIn(s, period));
    SubsetSize(SentIn(s, period), BegunIn(s, period));
  }

  lemma {:induction false} SubsetSize(a: set<RowId>, b: set<RowId>)
    requires a <= b
    ensures |a| <= |b|
  {
    if a != {} {
      var x :| x in a;
      SubsetSize(a - {x}, b - {x});
    }
  }

  // ---------------------------------------------------------------- with the user lock

  /** The user lock: a lane starts on a user's job only when no other lane holds that user, and the job
      names a row of that user. Deletion takes the same lock. */
  ghost predicate Locked(s: State, step: Step) {
    match step
    case Load(_, _, id, user) =>
      && (forall l :: l in s.lanes ==> s.lanes[l].user != user)
      && id in s.created && (id in s.t.rows ==> s.t.rows[id].user == user)
    case DeleteAccount(user) => forall l :: l in s.lanes ==> s.lanes[l].user != user
    case _ => true
  }

  ghost predicate LockedRun(s: State, steps: seq<Step>)
    requires ValidRun(s, steps)
    decreases steps
  {
    steps == [] || (Locked(s, steps[0]) && LockedRun(Apply(s, steps[0]), steps[1..]))
  }

  /** The status a lane relies on: nobody else can have changed it while the lane holds the lock. */
  predicate Expected(pc: Pc, row: Row) {
    && row.user == pc.user
    && (pc.Loaded? || pc.Cleared? ==> row.status == Waiting)
    && (pc.Calling? || pc.Returned? ==> row.status == Sending)
    && (pc.Closed? && pc.closing == Mark(Ambiguous) ==> row.status == Sending)
    && (pc.Closed? && pc.closing == Mark(Suppressed) ==> row.status == Waiting)
  }

  ghost predicate LockInv(s: State) {
    && (forall l, m :: l in s.lanes && m in s.lanes && s.lanes[l].user == s.lanes[m].user ==> l == m)
    && (forall l :: l in s.lanes ==> s.lanes[l].id in s.created)
    && (forall l :: l in s.lanes && s.lanes[l].id in s.t.rows ==> Expected(s.lanes[l], s.t.rows[s.lanes[l].id]))
  }

  /** queued -> sending -> sent | ambiguous | failed, queued -> suppressed; the last four never change. */
  predicate StatusCanMove(from: RowStatus, to: RowStatus) {
    match from
    case Waiting => to in {Sending, Suppressed}
    case Sending => to in {Sent, Ambiguous, Failed}
    case _ => false
  }

  ghost predicate StatusesMove(t: Tables, t': Tables) {
    forall id :: id in t.rows && id in t'.rows ==>
      t.rows[id].status == t'.rows[id].status || StatusCanMove(t.rows[id].status, t'.rows[id].status)
  }

  /** A lane that holds its user's lock writes only its own row. */
  lemma LockFrame(s: State, s': State, lane: Lane)
    requires LockInv(s) && lane in s.lanes && s'.created == s.created
    requires forall l :: l != lane ==> (l in s'.lanes <==> l in s.lanes) && (l in s.lanes ==> s'.lanes[l] == s.lanes[l])
    requires lane in s'.lanes ==> s'.lanes[lane].id == s.lanes[lane].id && s'.lanes[lane].user == s.lanes[lane].user
    requires forall id :: id != s.lanes[lane].id ==>
               (id in s'.t.rows <==> id in s.t.rows) && (id in s.t.rows ==> s'.t.rows[id] == s.t.rows[id])
    requires s.lanes[lane].id in s'.t.rows ==> s.lanes[lane].id in s.t.rows
    requires lane in s'.lanes && s.lanes[lane].id in s'.t.rows ==>
               Expected(s'.lanes[lane], s'.t.rows[s.lanes[lane].id])
    ensures LockInv(s')
  {
    forall l | l in s'.lanes && s'.lanes[l].id in s'.t.rows
      ensures Expected(s'.lanes[l], s'.t.rows[s'.lanes[l].id])
    {
      assert l != lane ==> s.lanes[l].id != s.lanes[lane].id;
    }
  }

  lemma LockReserve(s: State, step: Step)
    requires LockInv(s) && Enabled(s, step) && step.Reserve?
    ensures StatusesMove(s.t, Apply(s, step).t) && LockInv(Apply(s, step))
  {
    LockFrame(s, Apply(s, step), step.lane);
  }

  lemma LockRecord(s: State, step: Step)
    requires LockInv(s) && Enabled(s, step) && step.Record?
    ensures StatusesMove(s.t, Apply(s, step).t) && LockInv(Apply(s, step))
  {
    LockFrame(s, Apply(s, step), step.lane);
  }

  lemma LockClose(s: State, step: Step)
    requires LanesOk(s) && LockInv(s) && Enabled(s, step) && step.Close?
    ensures StatusesMove(s.t, Apply(s, step).t) && LockInv(Apply(s, step))
  {
    LockFrame(s, Apply(s, step), step.lane);
  }

  lemma LockLane(s: State, step: Step)
    requires LockInv(s) && Enabled(s, step) && Locked(s, step)
    requires step.Load? || step.Check? || step.Send? || step.Crash?
    ensures StatusesMove(s.t, Apply(s, step).t) && LockInv(Apply(s, step))
  {
    if step.Check? || step.Send? {
      LockFrame(s, Apply(s, step), step.lane);
    }
  }

  lemma LockTables(s: State, step: Step)
    requires LockInv(s) && RowsOk(s) && Enabled(s, step) && Locked(s, step)
    requires step.Insert? || step.InsertJob? || step.SetUser? || step.DeleteAccount?
    ensures StatusesMove(s.t, Apply(s, step).t) && LockInv(Apply(s, step))
  {
  }

  lemma LockStep(s: State, step: Step)
    requires Inv(s) && LockInv(s) && Enabled(s, step) && Locked(s, step)
    ensures StatusesMove(s.t, Apply(s, step).t) && LockInv(Apply(s, step))
  {
    hide LockInv, StatusesMove;
    match step
    case Reserve(_, _) => LockReserve(s, step);
    case Record(_) => LockRecord(s, step);
    case Close(_) => LockClose(s, step);
    case Load(_, _, _, _) => LockLane(s, step);
    case Check(_, _) => LockLane(s, step);
    case Send(_, _) => LockLane(s, step);
    case Crash(_) => LockLane(s, step);
    case _ => LockTables(s, step);
  }

  lemma {:induction false} SettledStays(s: State, steps: seq<Step>, id: RowId)
    requires Inv(s) && LockInv(s) && ValidRun(s, steps) && LockedRun(s, steps)
    requires id in s.t.rows && s.t.rows[id].status in {Sent, Ambiguous, Failed, Suppressed}
    ensures var t' := Run(s, steps).t; id in t'.rows ==> t'.rows[id].status == s.t.rows[id].status
    decreases steps
  {
    hide Apply, Enabled, Inv, LockInv, Locked;
    if steps != [] {
      LockStep(s, steps[0]);
      StepKeeps(s, steps[0]);
      CreatedStays(s, steps[0], id);
      var s1 := Apply(s, steps[0]);
      if id in s1.t.rows {
        SettledStays(s1, steps[1..], id);
      } else {
        GoneForever(s1, steps[1..], id);
      }
    }
  }

  lemma {:induction false} LockedRunKeeps(s: State, steps: seq<Step>)
    requires Inv(s) && LockInv(s) && ValidRun(s, steps) && LockedRun(s, steps)
    ensures Inv(Run(s, steps)) && LockInv(Run(s, steps))
    decreases steps
  {
    hide Apply, Enabled, Inv, LockInv, Locked;
    if steps != [] {
      LockStep(s, steps[0]);
      StepKeeps(s, steps[0]);
      LockedRunKeeps(Apply(s, steps[0]), steps[1..]);
    }
  }

  /** In every run under the user lock, a row that is sent, ambiguous, failed or suppressed keeps that status. */
  lemma SettledIsFinal(limit: nat, users: map<User, UserStatus>, before: seq<Step>, after: seq<Step>, id: RowId)
    requires var s0 := Init(limit, users);
             && ValidRun(s0, before) && LockedRun(s0, before)
             && ValidRun(Run(s0, before), after) && LockedRun(Run(s0, before), after)
    requires var t := Run(Init(limit, users), before).t;
             id in t.rows && t.rows[id].status in {Sent, Ambiguous, Failed, Suppressed}
    ensures var s := Run(Init(limit, users), before);
            var t' := Run(s, after).t;
            id in t'.rows ==> t'.rows[id].status == s.t.rows[id].status
  {
    hide Apply, Enabled, Inv, Locked, Run, ValidRun, LockedRun;
    InitOk(limit, users);
    LockedRunKeeps(Init(limit, users), before);
    SettledStays(Run(Init(limit, users), before), after, id);
  }

  // ---------------------------------------------------------------- what a status says about the call

  /** Sent and failed tell what the provider answered. */
  ghost predicate AnswersOk(s: State) {
    && (forall id :: id in s.answers <==> id in s.sends)
    && (forall l :: l in s.lanes && s.lanes[l].Returned? ==>
          s.lanes[l].id in s.answers && s.answers[s.lanes[l].id] == s.lanes[l].result)
    && (forall id :: id in s.recorded ==> id in s.answers)
    && (forall id :: id in s.t.rows && s.t.rows[id].status == Sent ==> id in s.answers && s.answers[id] == Delivered)
    && (forall id :: id in s.t.rows && s.t.rows[id].status == Failed ==> id in s.answers && s.answers[id] == Refused)
  }

  /** A statement after which no row is newly sent or failed, and no lane newly has an answer. */
  lemma AnswersFrame(s: State, s': State)
    requires AnswersOk(s) && s'.answers == s.answers && s'.sends == s.sends && s'.recorded == s.recorded
    requires forall l :: l in s'.lanes && s'.lanes[l].Returned? ==> l in s.lanes && s.lanes[l] == s'.lanes[l]
    requires forall id :: id in s'.t.rows && s'.t.rows[id].status in {Sent, Failed} ==>
               id in s.t.rows && s.t.rows[id].status == s'.t.rows[id].status
    ensures AnswersOk(s')
  {
  }

  lemma AnswersTables(s: State, step: Step)
    requires AnswersOk(s) && Enabled(s, step)
    requires step.Insert? || step.InsertJob? || step.SetUser? || step.DeleteAccount?
    ensures AnswersOk(Apply(s, step))
  {
    hide AnswersOk;
    AnswersFrame(s, Apply(s, step));
  }

  lemma AnswersLane(s: State, step: Step)
    requires AnswersOk(s) && Enabled(s, step) && (step.Load? || step.Check? || step.Reserve? || step.Crash?)
    ensures AnswersOk(Apply(s, step))
  {
    hide AnswersOk, WithinQuota;
    AnswersFrame(s, Apply(s, step));
  }

  lemma AnswersClose(s: State, step: Step)
    requires LanesOk(s) && AnswersOk(s) && Enabled(s, step) && step.Close?
    ensures AnswersOk(Apply(s, step))
  {
    hide AnswersOk;
    AnswersFrame(s, Apply(s, step));
  }

  lemma AnswersSend(s: State, step: Step)
    requires LanesOk(s) && Exclusive(s) && AnswersOk(s) && Enabled(s, step) && step.Send?
    ensures AnswersOk(Apply(s, step))
  {
    assert s.lanes[step.lane].id !in s.answers;
  }

  lemma AnswersRecord(s: State, step: Step)
    requires AnswersOk(s) && Enabled(s, step) && step.Record?
    ensures AnswersOk(Apply(s, step))
  {
  }

  lemma AnswersStep(s: State, step: Step)
    requires LanesOk(s) && Exclusive(s) && AnswersOk(s) && Enabled(s, step)
    ensures AnswersOk(Apply(s, step))
  {
    hide AnswersOk, LanesOk, Exclusive, Apply;
    match step
    case Send(_, _) => AnswersSend(s, step);
    case Record(_) => AnswersRecord(s, step);
    case Close(_) => AnswersClose(s, step);
    case Load(_, _, _, _) => AnswersLane(s, step);
    case Check(_, _) => AnswersLane(s, step);
    case Reserve(_, _) => AnswersLane(s, step);
    case Crash(_) => AnswersLane(s, step);
    case _ => AnswersTables(s, step);
  }

  lemma {:induction false} AnswersRun(s: State, steps: seq<Step>)
    requires Inv(s) && AnswersOk(s) && ValidRun(s, steps)
    ensures AnswersOk(Run(s, steps))
    decreases steps
  {
    hide Apply, Enabled, AnswersOk, RowsOk, BegunOk, LanesOk, Exclusive, QuotaOk;
    if steps != [] {
      StepKeeps(s, steps[0]);
      AnswersStep(s, steps[0]);
      AnswersRun(Apply(s, steps[0]), steps[1..]);
    }
  }

  /** Over every run, with or without the lock: a row is sent only if the provider took its one call, and failed only if
      the provider refused it. */
  lemma StatusTellsAnswer(limit: nat, users: map<User, UserStatus>, steps: seq<Step>, id: RowId)
    requires ValidRun(Init(limit, users), steps) && id in Run(Init(limit, users), steps).t.rows
    ensures var s := Run(Init(limit, users), steps);
            && (s.t.rows[id].status == Sent ==> s.sends[id] == 1 && id in s.answers && s.answers[id] == Delivered)
            && (s.t.rows[id].status == Failed ==> s.sends[id] == 1 && id in s.answers && s.answers[id] == Refused)
  {
    hide Apply, Enabled, Run, ValidRun;
    InitOk(limit, users);
    RunKeeps(Init(limit, users), steps);
    AnswersRun(Init(limit, users), steps);
  }

  /** Once the answer of a call is written down, the row shows it. */
  ghost predicate RecordedOk(s: State) {
    forall id :: id in s.recorded && id in s.t.rows ==>
      && id in s.answers
      && match s.answers[id]
         case Delivered => s.t.rows[id].status == Sent
         case Uncertain => s.t.rows[id].status == Ambiguous
         case Refused => s.t.rows[id].status == Failed
  }

  lemma RecordedRecord(s: State, step: Step)
    requires LockInv(s) && AnswersOk(s) && RecordedOk(s) && Enabled(s, step) && step.Record?
    ensures RecordedOk(Apply(s, step))
  {
  }

  /** Steps other than writing an answer down. */
  lemma RecordedOther(s: State, step: Step)
    requires Inv(s) && AnswersOk(s) && RecordedOk(s) && Enabled(s, step) && !step.Record?
    requires StatusesMove(s.t, Apply(s, step).t)
    ensures RecordedOk(Apply(s, step))
  {
    hide Apply, Inv;
    var s' := Apply(s, step);
    AnswersStay(s, step);
    forall id | id in s'.recorded && id in s'.t.rows
      ensures id in s.t.rows && s'.t.rows[id].status == s.t.rows[id].status && s'.answers[id] == s.answers[id]
    {
      StaysPresent(s, step, id);
    }
  }

  lemma AnswersStay(s: State, step: Step)
    requires Enabled(s, step) && !step.Record?
    ensures var s' := Apply(s, step);
            && s'.recorded == s.recorded
            && s'.answers == if step.Send? then s.answers[s.lanes[step.lane].id := step.result] else s.answers
  {
    hide Reserved, Inserted, JobInserted, AccountPurged, AfterClose, AfterLoad, AfterCheck, AfterReserve;
  }

  /** A recorded row that is there was there before, and its call is over. */
  lemma StaysPresent(s: State, step: Step, id: RowId)
    requires Inv(s) && AnswersOk(s) && Enabled(s, step) && id in s.recorded && id in Apply(s, step).t.rows
    ensures id in s.t.rows
    ensures step.Send? ==> s.lanes[step.lane].id != id
  {
    hide QuotaOk, Apply;
    assert id in s.sends && id in s.begun && id in s.created;
    if id !in s.t.rows { GoneStep(s, step, id); }
  }

  lemma {:induction false} RecordedRun(s: State, steps: seq<Step>)
    requires Inv(s) && LockInv(s) && AnswersOk(s) && RecordedOk(s) && ValidRun(s, steps) && LockedRun(s, steps)
    ensures RecordedOk(Run(s, steps))
    decreases steps
  {
    hide Apply, Enabled, Locked, AnswersOk, RecordedOk, LockInv, RowsOk, BegunOk, LanesOk, Exclusive, QuotaOk;
    if steps != [] {
      LockStep(s, steps[0]);
      StepKeeps(s, steps[0]);
      AnswersStep(s, steps[0]);
      if steps[0].Record? { RecordedRecord(s, steps[0]); } else { RecordedOther(s, steps[0]); }
      RecordedRun(Apply(s, steps[0]), steps[1..]);
    }
  }

  /** Under the lock, a row whose call was answered and recorded is sent, ambiguous or failed as the call was delivered,
      uncertain or refused. */
  lemma AnswerIsShown(limit: nat, users: map<User, UserStatus>, steps: seq<Step>, id: RowId)
    requires ValidRun(Init(limit, users), steps) && LockedRun(Init(limit, users), steps)
    requires var s := Run(Init(limit, users), steps); id in s.recorded && id in s.t.rows
    ensures var s := Run(Init(limit, users), steps);
            && id in s.answers
            && s.t.rows[id].status == match s.answers[id]
                                      case Delivered => Sent
                                      case Uncertain => Ambiguous
                                      case Refused => Failed
  {
    hide Apply, Enabled, Run, ValidRun, LockedRun;
    InitOk(limit, users);
    RecordedRun(Init(limit, users), steps);
  }

  lemma CreatedStays(s: State, step: Step, id: RowId)
    requires Inv(s) && Enabled(s, step) && id in s.t.rows
    ensures id in Apply(s, step).created
  {
    hide Reserved, Completed, Marked, Purged, AccountPurged, BegunOk, LanesOk, Exclusive, QuotaOk;
  }

  lemma GoneStep(s: State, step: Step, id: RowId)
    requires Enabled(s, step) && id in s.created && id !in s.t.rows
    ensures id in Apply(s, step).created && id !in Apply(s, step).t.rows
  {
  }

  lemma {:induction false} GoneForever(s: State, steps: seq<Step>, id: RowId)
    requires ValidRun(s, steps) && id in s.created && id !in s.t.rows
    ensures id !in Run(s, steps).t.rows
    decreases steps
  {
    hide Apply, Enabled;
    if steps != [] {
      GoneStep(s, steps[0], id);
      GoneForever(Apply(s, steps[0]), steps[1..], id);
    }
  }

  /** Without the lock the same statements can turn a delivered message into an ambiguous one: a second
      lane reads the row while the first is calling the provider, and marks it after the first is done. */
  lemma SentNotFinalWithoutLock() returns (before: seq<Step>, last: Step)
    ensures ValidRun(Init(0, map[0 := UserActive]), before)
    ensures var s := Run(Init(0, map[0 := UserActive]), before);
            && Enabled(s, last) && 0 in s.t.rows && s.t.rows[0].status == Sent
            && 0 in Apply(s, last).t.rows && Apply(s, last).t.rows[0].status == Ambiguous
  {
    hide ValidRun, Run;
    var s0 := Init(0, map[0 := UserActive]);
    NoSteps(s0);
    var s;
    before, s := Extend(s0, [], s0, Insert(0, 7, 0, false));
    before, s := Extend(s0, before, s, Load(1, 0, 0, 0));
    assert s == State(Tables(map[0 := Row(7, 0, false, Waiting, 0)], map[], map[0 := UserActive], map[], map[]),
                      map[1 := Loaded(0, 0, 0, false)], 0, map[0 := 7], map[], multiset{}, multiset{}, {}, map[], {});
    before, s := Reserving(s0, before, s);
    before, s := Overtaken(s0, before, s);
    last := Close(2);
  }

  lemma Reserving(s0: State, steps: seq<Step>, now: State) returns (more: seq<Step>, s: State)
    requires ValidRun(s0, steps) && now == Run(s0, steps) && now.lanes == map[1 := Loaded(0, 0, 0, false)]
    requires now.t.rows == map[0 := Row(7, 0, false, Waiting, 0)] && now.t.users == map[0 := UserActive]
    requires now.limit == 0
    ensures ValidRun(s0, more) && s == Run(s0, more) && s.lanes == map[1 := Calling(0, 0, 0, false, 1)]
    ensures 0 in s.t.rows && !s.t.rows[0].ephemeral && s.t.rows[0].status == Sending
  {
    hide ValidRun, Run, Inserted, JobInserted, Completed, AccountPurged, Purged, Marked, AfterLoad, AfterClose,
      AfterRecord;
    more, s := Extend(s0, steps, now, Check(1, true));
    more, s := Extend(s0, more, s, Reserve(1, 1));
  }

  lemma Overtaken(s0: State, steps: seq<Step>, now: State) returns (more: seq<Step>, s: State)
    requires ValidRun(s0, steps) && now == Run(s0, steps) && now.lanes == map[1 := Calling(0, 0, 0, false, 1)]
    requires 0 in now.t.rows && !now.t.rows[0].ephemeral && now.t.rows[0].status == Sending
    ensures ValidRun(s0, more) && s == Run(s0, more) && 2 in s.lanes && s.lanes[2] == Closed(0, 0, 0, Mark(Ambiguous))
    ensures 0 in s.t.rows && s.t.rows[0].status == Sent
  {
    hide ValidRun, Run, Inserted, JobInserted, Reserved, Completed, AccountPurged, Purged, Marked, AfterCheck,
      AfterReserve, AfterClose, AfterRecord;
    more, s := Extend(s0, steps, now, Send(1, Delivered));
    more, s := Extend(s0, more, s, Load(2, 0, 0, 0));
    more, s := Recording(s0, more, s);
  }

  lemma Recording(s0: State, steps: seq<Step>, now: State) returns (more: seq<Step>, s: State)
    requires ValidRun(s0, steps) && now == Run(s0, steps)
    requires 1 in now.lanes && now.lanes[1] == Returned(0, 0, 0, false, 1, Delivered)
    requires 2 in now.lanes && now.lanes[2] == Closed(0, 0, 0, Mark(Ambiguous))
    requires 0 in now.t.rows && !now.t.rows[0].ephemeral && now.t.rows[0].status == Sending
    ensures ValidRun(s0, more) && s == Run(s0, more) && 2 in s.lanes && s.lanes[2] == Closed(0, 0, 0, Mark(Ambiguous))
    ensures 0 in s.t.rows && s.t.rows[0].status == Sent
  {
    hide ValidRun, Run, Inserted, JobInserted, Reserved, AccountPurged, Purged, Marked, AfterLoad, AfterCheck,
      AfterReserve, AfterClose;
    more, s := Extend(s0, steps, now, Record(1));
  }

  lemma NoSteps(s: State)
    ensures ValidRun(s, []) && Run(s, []) == s
  {
  }

  lemma Extend(s: State, steps: seq<Step>, now: State, step: Step) returns (more: seq<Step>, next: State)
    requires ValidRun(s, steps) && now == Run(s, steps) && Enabled(now, step)
    ensures more == steps + [step] && ValidRun(s, more)
    ensures next == Apply(now, step) == Run(s, more)
  {
    hide Enabled, Apply;
    RunAppend(s, steps, step);
    more := steps + [step];
    next := Apply(now, step);
  }
}
