/** The tables that hold rows of a user. */
module AccountTables {

  datatype Table =
    | Jobs | PendingActions | Schedules | Outbound | Insights | Rules | UserCounters | Corrections | Predictions
    | Transactions | ExtractedFields | Attempts | Receipts | Messages | Identities
}

/**
Account deletion against every other actor. Whoever may create rows for a user does so inside a session
that holds the user's lock and starts by reading what the code reads: the chat handler and the summary
runner the user's status, the worker the user's status and then, in its later phases, the receipt.
*/
module AccountRuns {
  import opened Domain
  import opened AccountTables

  type User = nat
  type RowId = nat
  type Lane = nat

  /** An ephemeral row is the outbox row that reports the deletion itself, or the job that sends it. */
  datatype Row = Row(table: Table, user: User, ephemeral: bool)

  /** Who holds the lock. `Resume` is phase two, phase three or the failure path of the receipt worker. */
  datatype Actor = Chat | Prepare(receipt: RowId) | Resume(receipt: RowId) | Runner | Deleter

  datatype Phase = Entered | Working | Deleting | Reporting

  datatype Session = Session(actor: Actor, user: User, phase: Phase)

  /** `matched` are the receipts whose owner a worker found to be the user its job names. */
  datatype State = State(
    users: map<User, UserStatus>, rows: map<RowId, Row>, rowsEver: set<RowId>,
    sessions: map<Lane, Session>, matched: set<(User, RowId)>)

  datatype Step =
    | NewUser(user: User)
    | SetStatus(user: User, status: UserStatus)
    | Enter(lane: Lane, actor: Actor, user: User)
    | Check(lane: Lane)
    | Insert(lane: Lane, row: RowId, table: Table)
    | Remove(row: RowId)
    | BeginDeletion(lane: Lane)
    | PurgeData(lane: Lane)
    | Report(lane: Lane, row: RowId, table: Table)
    | Leave(lane: Lane)

  const INIT: State := State(map[], map[], {}, map[], {})

  /** The tables an actor inserts into for the locked user. Every reply is an outbox row and a job. */
  predicate MayInsert(actor: Actor, table: Table) {
    match actor
    case Chat => table !in {ExtractedFields, Attempts, Messages, Identities}
    case Prepare(_) => table == Attempts
    case Resume(_) => table in {Transactions, PendingActions, Outbound, Jobs, ExtractedFields, Predictions, Attempts}
    case Runner => table in {Insights, Outbound, Jobs}
    case Deleter => false
  }

  /** What a session reads before it may insert anything. */
  predicate Admits(s: State, session: Session) {
    var u := session.user;
    match session.actor
    case Chat => u in s.users && s.users[u] !in {UserDeleted, UserDeleting}
    case Prepare(r) => u in s.users && s.users[u] != UserDeleted && r in s.rows && s.rows[r] == Row(Receipts, u, false)
    case Resume(r) => r in s.rows && s.rows[r].table == Receipts && (u, r) in s.matched
    case Runner => u in s.users && s.users[u] == UserActive
    case Deleter => u in s.users
  }

  predicate Enabled(s: State, step: Step) {
    match step
    case NewUser(u) => u !in s.users
    case SetStatus(u, status) => u in s.users && s.users[u] != UserDeleted && status != UserDeleted
    case Enter(lane, _, u) => lane !in s.sessions && forall l :: l in s.sessions ==> s.sessions[l].user != u
    case Check(lane) => lane in s.sessions && s.sessions[lane].phase == Entered
    case Insert(lane, row, table) =>
      && lane in s.sessions && s.sessions[lane].phase == Working && row !in s.rowsEver
      && MayInsert(s.sessions[lane].actor, table)
    case BeginDeletion(lane) =>
      lane in s.sessions && s.sessions[lane].phase == Working && s.sessions[lane].actor in {Chat, Deleter}
    case PurgeData(lane) => lane in s.sessions && s.sessions[lane].phase == Deleting
    case Report(lane, row, table) =>
      && lane in s.sessions && s.sessions[lane].phase == Reporting && row !in s.rowsEver
      && table in {Outbound, Jobs}
    case _ => true
  }

  function At(s: State, lane: Lane, phase: Phase): map<Lane, Session>
    requires lane in s.sessions
  {
    s.sessions[lane := s.sessions[lane].(phase := phase)]
  }

  function Apply(s: State, step: Step): State
    requires Enabled(s, step)
  {
    match step
    case NewUser(u) => s.(users := s.users[u := UserPending])
    case SetStatus(u, status) => s.(users := s.users[u := status])
    case Enter(lane, actor, u) => s.(sessions := s.sessions[lane := Session(actor, u, Entered)])
    case Check(lane) =>
      var se := s.sessions[lane];
      if !Admits(s, se) then s.(sessions := s.sessions - {lane})
      else if se.actor.Prepare? then
        s.(sessions := At(s, lane, Working), matched := s.matched + {(se.user, se.actor.receipt)})
      else s.(sessions := At(s, lane, Working))
    case Insert(lane, row, table) =>
      s.(rows := s.rows[row := Row(table, s.sessions[lane].user, false)], rowsEver := s.rowsEver + {row})
    case Remove(row) => s.(rows := s.rows - {row})
    case BeginDeletion(lane) =>
      var u := s.sessions[lane].user;
      if u !in s.users || s.users[u] == UserDeleted then s.(sessions := s.sessions - {lane})
      else s.(users := s.users[u := UserDeleting], sessions := At(s, lane, Deleting))
    case PurgeData(lane) =>
      var u := s.sessions[lane].user;
      if u !in s.users || s.users[u] != UserDeleting then s.(sessions := s.sessions - {lane})
      else s.(users := s.users[u := UserDeleted], rows := map r | r in s.rows && s.rows[r].user != u :: s.rows[r],
              sessions := At(s, lane, Reporting))
    case Report(lane, row, table) =>
      s.(rows := s.rows[row := Row(table, s.sessions[lane].user, true)], rowsEver := s.rowsEver + {row})
    case Leave(lane) => s.(sessions := s.sessions - {lane})
  }

  ghost predicate ValidRun(s: State, steps: seq<Step>)
    decreases steps
  {
    steps == [] || (Enabled(s, steps[0]) && ValidRun(Apply(s, steps[0]), steps[1..]))
  }

  ghost function Run(s: State, steps: seq<Step>): State
    requires ValidRun(s, steps)
    decreases steps
  {
    if steps == [] then s else Run(Apply(s, steps[0]), steps[1..])
  }

  // ---------------------------------------------------------------- what every step keeps

  predicate Erased(s: State, user: User) {
    forall r :: r in s.rows && s.rows[r].user == user ==> s.rows[r].ephemeral
  }

  predicate IsDeleted(s: State, user: User) {
    user in s.users && s.users[user] == UserDeleted
  }

  ghost predicate Inv(s: State) {
    && (forall l, m :: l in s.sessions && m in s.sessions && s.sessions[l].user == s.sessions[m].user ==> l == m)
    && (forall r :: r in s.rows ==> r in s.rowsEver && s.rows[r].user in s.users)
    && (forall r :: r in s.rows && s.rows[r].ephemeral ==> s.rows[r].table in {Outbound, Jobs})
    && (forall u :: IsDeleted(s, u) ==> Erased(s, u))
    && (forall l :: l in s.sessions && s.sessions[l].phase == Working && !s.sessions[l].actor.Deleter? ==>
          s.sessions[l].user in s.users && !IsDeleted(s, s.sessions[l].user))
    && (forall l :: l in s.sessions && s.sessions[l].phase in {Deleting, Reporting} ==> s.sessions[l].user in s.users)
    && (forall u, r :: (u, r) in s.matched ==> r in s.rowsEver && (r in s.rows ==> s.rows[r].user == u))
  }

  lemma InsertKeeps(s: State, step: Step)
    requires Inv(s) && Enabled(s, step) && (step.Insert? || step.Report?)
    ensures Inv(Apply(s, step))
  {
    var s' := Apply(s, step);
    forall u | IsDeleted(s', u) ensures Erased(s', u) {
      assert IsDeleted(s, u) && Erased(s, u);
    }
  }

  lemma CheckKeeps(s: State, step: Step)
    requires Inv(s) && Enabled(s, step) && step.Check?
    ensures Inv(Apply(s, step))
  {
    var s' := Apply(s, step);
    var se := s.sessions[step.lane];
    assert forall u :: IsDeleted(s', u) <==> IsDeleted(s, u);
    assert forall u :: Erased(s', u) <==> Erased(s, u);
    if Admits(s, se) && se.actor.Resume? {
      var r := se.actor.receipt;
      assert s.rows[r].table == Receipts && !s.rows[r].ephemeral && s.rows[r].user == se.user;
      assert !Erased(s, se.user);
    }
  }

  lemma PurgeKeeps(s: State, step: Step)
    requires Inv(s) && Enabled(s, step) && (step.PurgeData? || step.BeginDeletion?)
    ensures Inv(Apply(s, step))
  {
    var s' := Apply(s, step);
    var purged := s.sessions[step.lane].user;
    forall u | IsDeleted(s', u) ensures Erased(s', u) {
      if u != purged || IsDeleted(s, u) {
        assert IsDeleted(s, u) && Erased(s, u);
      }
    }
  }

  lemma OtherKeeps(s: State, step: Step)
    requires Inv(s) && Enabled(s, step)
    requires step.NewUser? || step.SetStatus? || step.Enter? || step.Remove? || step.Leave?
    ensures Inv(Apply(s, step))
  {
    var s' := Apply(s, step);
    forall u | IsDeleted(s', u) ensures Erased(s', u) {
      assert IsDeleted(s, u) && Erased(s, u);
    }
  }

  lemma StepKeeps(s: State, step: Step)
    requires Inv(s) && Enabled(s, step)
    ensures Inv(Apply(s, step))
  {
    match step
    case Insert(_, _, _) => InsertKeeps(s, step);
    case Report(_, _, _) => InsertKeeps(s, step);
    case Check(_) => CheckKeeps(s, step);
    case PurgeData(_) => PurgeKeeps(s, step);
    case BeginDeletion(_) => PurgeKeeps(s, step);
    case _ => OtherKeeps(s, step);
  }

  lemma {:induction false} RunKeeps(s: State, steps: seq<Step>)
    requires Inv(s) && ValidRun(s, steps)
    ensures Inv(Run(s, steps))
    decreases steps
  {
    if steps != [] {
      StepKeeps(s, steps[0]);
      RunKeeps(Apply(s, steps[0]), steps[1..]);
    }
  }

  lemma {:induction false} DeletedForever(s: State, steps: seq<Step>, user: User)
    requires ValidRun(s, steps) && IsDeleted(s, user)
    ensures IsDeleted(Run(s, steps), user)
    decreases steps
  {
    if steps != [] {
      DeletedForever(Apply(s, steps[0]), steps[1..], user);
    }
  }

  // ---------------------------------------------------------------- main results

  /** Once the purge of a user commits, no later step of any actor leaves a row of that user behind, other than the
      ephemeral report of the deletion and its job. */
  lemma NothingComesBack(before: seq<Step>, lane: Lane, after: seq<Step>)
    requires ValidRun(INIT, before)
    requires var s := Run(INIT, before);
             && Enabled(s, PurgeData(lane))
             && s.sessions[lane].user in s.users && s.users[s.sessions[lane].user] == UserDeleting
    requires ValidRun(Apply(Run(INIT, before), PurgeData(lane)), after)
    ensures var u := Run(INIT, before).sessions[lane].user;
            Erased(Run(Apply(Run(INIT, before), PurgeData(lane)), after), u)
  {
    RunKeeps(INIT, before);
    var s := Run(INIT, before);
    StepKeeps(s, PurgeData(lane));
    var s1 := Apply(s, PurgeData(lane));
    RunKeeps(s1, after);
    DeletedForever(s1, after, s.sessions[lane].user);
  }

  lemma {:induction false} RunAppend(s: State, steps: seq<Step>, step: Step)
    requires ValidRun(s, steps) && Enabled(Run(s, steps), step)
    ensures ValidRun(s, steps + [step]) && Run(s, steps + [step]) == Apply(Run(s, steps), step)
    decreases steps
  {
    hide Enabled, Apply;
    if steps == [] {
      assert (steps + [step])[0] == step && (steps + [step])[1..] == [];
    } else {
      assert (steps + [step])[0] == steps[0] && (steps + [step])[1..] == steps[1..] + [step];
      RunAppend(Apply(s, steps[0]), steps[1..], step);
    }
  }

  lemma Extend(s: State, steps: seq<Step>, now: State, step: Step) returns (more: seq<Step>, next: State)
    requires ValidRun(s, steps) && now == Run(s, steps) && Enabled(now, step)
    ensures more == steps + [step] && ValidRun(s, more)
    ensures next == Apply(now, step) == Run(s, more)
  {
    hide Enabled, Apply;
    RunAppend(s, steps, step);
    more := steps + [step];
    next := Apply(now, step);
  }

  lemma NoSteps(s: State)
    ensures ValidRun(s, []) && Run(s, []) == s
  {
  }

  /** A deleter that enters without the lock. */
  function Intruded(s: State): State {
    s.(sessions := s.sessions[2 := Session(Deleter, 0, Entered)])
  }

  /** The lock is what keeps deletion final: let a deleter in while a chat handler is at work, and a row of the user
      returns after the purge. */
  lemma RowsReturnWithoutLock() returns (before: seq<Step>, after: seq<Step>)
    ensures ValidRun(INIT, before) && ValidRun(Intruded(Run(INIT, before)), after)
    ensures var s := Run(Intruded(Run(INIT, before)), after); IsDeleted(s, 0) && !Erased(s, 0)
  {
    hide ValidRun, Run;
    NoSteps(INIT);
    var s;
    before, s := Extend(INIT, [], INIT, NewUser(0));
    before, s := Extend(INIT, before, s, Enter(1, Chat, 0));
    before, s := Extend(INIT, before, s, Check(1));
    after, s := DeletedMeanwhile(s);
  }

  lemma DeletedMeanwhile(now: State) returns (after: seq<Step>, s: State)
    requires now == INIT.(users := map[0 := UserPending], sessions := map[1 := Session(Chat, 0, Working)])
    ensures ValidRun(Intruded(now), after) && s == Run(Intruded(now), after)
    ensures IsDeleted(s, 0) && !Erased(s, 0)
  {
    hide ValidRun, Run;
    var s0 := Intruded(now);
    NoSteps(s0);
    after, s := Extend(s0, [], s0, Check(2));
    after, s := Extend(s0, after, s, BeginDeletion(2));
    after, s := Extend(s0, after, s, PurgeData(2));
    after, s := Extend(s0, after, s, Insert(1, 7, Transactions));
    assert s.rows[7] == Row(Transactions, 0, false);
  }
}

/** The deletion saga as it runs: mark, delete objects and exports, purge. */
module Account {
  import opened Domain
  import opened AccountTables

  type User = nat
  type RowId = nat
  type ObjectKey = nat

  /** Every table the purge empties, in its order. */
  const PURGE_ORDER: seq<Table> := [
    Jobs, PendingActions, Schedules, Outbound, Insights, Rules, UserCounters, Corrections, Predictions,
    Transactions, ExtractedFields, Attempts, Receipts, Messages, Identities]

  /** `sender` is the user whose provider identity the payload of a message names. */
  datatype Row = Row(table: Table, user: Option<User>, key: Option<ObjectKey>, sender: Option<User>)

  datatype Report = Report(receiptsDeleted: nat, transactionsDeleted: nat, filesRemoved: nat, exportsRemoved: nat,
                           rowsPurged: nat, jobsPurged: nat)

  /** A message belongs to its owner and to whoever its payload names. */
  predicate Mine(row: Row, user: User) {
    row.user == Some(user) || (row.table == Messages && row.sender == Some(user))
  }

  ghost function RowsOf(rows: map<RowId, Row>, user: User): set<RowId> {
    set r | r in rows && Mine(rows[r], user)
  }

  ghost function RowsIn(rows: map<RowId, Row>, user: User, table: Table): set<RowId> {
    set r | r in rows && Mine(rows[r], user) && rows[r].table == table
  }

  ghost function KeysOf(rows: map<RowId, Row>, user: User): set<ObjectKey> {
    set r | r in rows && Mine(rows[r], user) && rows[r].table == Receipts && rows[r].key.Some? :: rows[r].key.value
  }

  /** The message that asked for the deletion outlives it, without an owner. */
  predicate Kept(row: Row, r: RowId, trigger: Option<RowId>) {
    row.table == Messages && trigger == Some(r)
  }

  predicate TriggerOk(rows: map<RowId, Row>, user: User, trigger: Option<RowId>) {
    trigger.Some? ==>
      && trigger.value in rows && rows[trigger.value].table == Messages
      && rows[trigger.value].user == Some(user)
  }

  /** What remains when the user's rows in `tables` are gone. */
  ghost function Without(rows: map<RowId, Row>, user: User, tables: seq<Table>, trigger: Option<RowId>): map<RowId,
                         Row> {
    map r | r in rows && !(Mine(rows[r], user) && rows[r].table in tables && !Kept(rows[r], r, trigger)) :: rows[r]
  }

  function Anonymous(row: Row): Row {
    row.(user := None, sender := None)
  }

  /** The tables after a purge: other users' rows, and the triggering message with its owner erased. */
  ghost function Purged(rows: map<RowId, Row>, user: User, trigger: Option<RowId>): map<RowId, Row> {
    map r | r in rows && (!Mine(rows[r], user) || trigger == Some(r)) ::
      if trigger == Some(r) then Anonymous(rows[r]) else rows[r]
  }

  ghost predicate Distinct(tables: seq<Table>) {
    forall i, j :: 0 <= i < j < |tables| ==> tables[i] != tables[j]
  }

  function Rank(t: Table): nat {
    match t
    case Jobs => 0 case PendingActions => 1 case Schedules => 2 case Outbound => 3 case Insights => 4 case Rules => 5
    case UserCounters => 6 case Corrections => 7 case Predictions => 8 case Transactions => 9
    case ExtractedFields => 10 case Attempts => 11 case Receipts => 12 case Messages => 13 case Identities => 14
  }

  /** The order lists every table once. */
  lemma PurgeOrderComplete()
    ensures Distinct(PURGE_ORDER) && forall t: Table :: t in PURGE_ORDER
  {
    forall i | 0 <= i < |PURGE_ORDER| ensures Rank(PURGE_ORDER[i]) == i {}
    forall t: Table ensures t in PURGE_ORDER {
      assert PURGE_ORDER[Rank(t)] == t;
    }
  }

  lemma Parted(rows: map<RowId, Row>, rest: map<RowId, Row>, user: User, gone: set<RowId>)
    requires rest == (map r | r in rows && r !in gone :: rows[r]) && gone <= RowsOf(rows, user)
    ensures |RowsOf(rows, user)| == |RowsOf(rest, user)| + |gone|
  {
    assert RowsOf(rows, user) == RowsOf(rest, user) + gone;
  }

  class AccountDb {
    var users: map<User, UserStatus>
    var rows: map<RowId, Row>
    var objects: set<ObjectKey>
    var exports: map<User, nat>  // files left by earlier exports

    /** DELETE ... WHERE user_id, with the number of rows it removed. */
    method DeleteFrom(user: User, table: Table, trigger: Option<RowId>) returns (n: nat)
      modifies this`rows
      ensures rows == Without(old(rows), user, [table], trigger)
      ensures table != Messages ==> n == |RowsIn(old(rows), user, table)|
      ensures |RowsOf(old(rows), user)| == |RowsOf(rows, user)| + n
    {
      hide Mine;
      var gone := set r | r in rows && Mine(rows[r], user) && rows[r].table == table && !Kept(rows[r], r, trigger);
      n := |gone|;
      rows := map r | r in rows && r !in gone :: rows[r];
      assert table != Messages ==> gone == RowsIn(old(rows), user, table);
      Parted(old(rows), rows, user, gone);
      assert forall t :: t in [table] <==> t == table;
    }

    method BeginAccountDeletion(user: User) returns (o: Outcome, keys: set<ObjectKey>)
      modifies this`users
      ensures o == if user !in old(users) then Err(NotFound)
                   else if old(users)[user] == UserDeleted then Err(Conflict) else Nil
      ensures users == if o == Nil then old(users)[user := UserDeleting] else old(users)
      ensures o == Nil ==> keys == KeysOf(rows, user)
      ensures o == Nil ==>
                keys == set r | r in rows && rows[r].user == Some(user) && rows[r].table == Receipts
                                && rows[r].key.Some? :: rows[r].key.value
    {
      if user !in users { return Err(NotFound), {}; }
      if users[user] == UserDeleted { return Err(Conflict), {}; }
      users := users[user := UserDeleting];
      keys := set r | r in rows && Mine(rows[r], user) && rows[r].table == Receipts && rows[r].key.Some?
                    :: rows[r].key.value;
      o := Nil;
    }

    method DeleteTables(user: User, tables: seq<Table>, trigger: Option<RowId>)
      returns (purged: nat, jobs: nat, txs: nat, receipts: nat)
      requires Distinct(tables)
      modifies this`rows
      ensures rows == Without(old(rows), user, tables, trigger)
      ensures |RowsOf(old(rows), user)| == |RowsOf(rows, user)| + purged + jobs
      ensures jobs == if Jobs in tables then |RowsIn(old(rows), user, Jobs)| else 0
      ensures txs == if Transactions in tables then |RowsIn(old(rows), user, Transactions)| else 0
      ensures receipts == if Receipts in tables then |RowsIn(old(rows), user, Receipts)| else 0
    {
      purged, jobs, txs, receipts := 0, 0, 0, 0;
      for i := 0 to |tables|
        invariant rows == Without(old(rows), user, tables[..i], trigger)
        invariant |RowsOf(old(rows), user)| == |RowsOf(rows, user)| + purged + jobs
        invariant jobs == if Jobs in tables[..i] then |RowsIn(old(rows), user, Jobs)| else 0
        invariant txs == if Transactions in tables[..i] then |RowsIn(old(rows), user, Transactions)| else 0
        invariant receipts == if Receipts in tables[..i] then |RowsIn(old(rows), user, Receipts)| else 0
      {
        var table := tables[i];
        assert tables[..i + 1] == tables[..i] + [table];
        assert table !in tables[..i];
        OneMoreTable(old(rows), user, tables[..i], table, trigger);
        var n := DeleteFrom(user, table, trigger);
        if table == Jobs { jobs := n; } else { purged := purged + n; }
        if table == Transactions { txs := n; }
        if table == Receipts { receipts := n; }
      }
      assert tables[..|tables|] == tables;
    }

    /** One transaction: every row of the user goes except the triggering message, which loses its owner; the tombstone
        stays, and the counters add up to what was there. A trigger that is not a message of the user rolls it back. */
    method PurgeAccountData(user: User, trigger: Option<RowId>) returns (o: Outcome, report: Report)
      modifies this`users, this`rows
      ensures o == if user !in old(users) then Err(NotFound)
                   else if old(users)[user] != UserDeleting || !TriggerOk(old(rows), user, trigger) then Err(Conflict)
                   else Nil
      ensures o != Nil ==> users == old(users) && rows == old(rows)
      ensures o == Nil ==>
                forall r :: r in rows <==>
                  && r in old(rows)
                  && (|| trigger == Some(r)
                      || !(|| old(rows)[r].user == Some(user)
                           || (old(rows)[r].table == Messages && old(rows)[r].sender == Some(user))))
      ensures o == Nil ==>
                forall r :: r in rows ==>
                  rows[r] == if trigger == Some(r) then Row(Messages, None, old(rows)[r].key, None) else old(rows)[r]
      ensures o == Nil && trigger.Some? ==>
                trigger.value in old(rows) && old(rows)[trigger.value].table == Messages
                && old(rows)[trigger.value].user == Some(user)
      ensures o == Nil ==>
                && users == old(users)[user := UserDeleted] && rows == Purged(old(rows), user, trigger)
                && report.rowsPurged + report.jobsPurged + (if trigger.Some? then 1 else 0) == |RowsOf(old(rows), user)|
                && report.jobsPurged == |RowsIn(old(rows), user, Jobs)|
                && report.transactionsDeleted == |RowsIn(old(rows), user, Transactions)|
                && report.receiptsDeleted == |RowsIn(old(rows), user, Receipts)|
    {
      hide Without, Purged, Mine, RowsIn;
      report := Report(0, 0, 0, 0, 0, 0);
      if user !in users { return Err(NotFound), report; }
      if users[user] != UserDeleting { return Err(Conflict), report; }
      var rows0 := rows;
      PurgeOrderComplete();
      var purged, jobs, txs, receipts := DeleteTables(user, PURGE_ORDER, trigger);
      AllTables(rows0, user, PURGE_ORDER, trigger);
      if trigger.Some? {
        if !(trigger.value in rows && rows[trigger.value].table == Messages && rows[trigger.value].user == Some(user)) {
          rows := rows0;
          return Err(Conflict), report;
        }
        rows := rows[trigger.value := Anonymous(rows[trigger.value])];
      }
      users := users[user := UserDeleted];
      PurgedRows(rows0, user, trigger);
      o, report := Nil, Report(receipts, txs, 0, 0, purged, jobs);
    }

    /** Deletes objects until one is refused. */
    method RemoveObjects(keys: set<ObjectKey>, refused: set<ObjectKey>) returns (done: bool, removed: nat)
      modifies this`objects
      ensures done <==> keys !! refused
      ensures done ==> objects == old(objects) - keys && removed == |keys|
      ensures old(objects) - keys <= objects <= old(objects)
    {
      removed := 0;
      var rest := keys;
      while rest != {}
        invariant rest <= keys && objects == old(objects) - (keys - rest)
        invariant removed + |rest| == |keys| && (keys - rest) !! refused
        decreases |rest|
      {
        var key :| key in rest;
        if key in refused { return false, removed; }
        objects := objects - {key};
        removed := removed + 1;
        rest := rest - {key};
      }
      done := true;
    }

    /** The saga. `refused` are the objects whose deletion the object store refuses, `exportsFail` a fault on the export
        directory. It finishes with every row, every stored original and every export of the user gone, or it stops with
        all rows in place and the user marked, from where the same call resumes; once nothing fails it finishes. */
    method DeleteAccount(user: User, trigger: Option<RowId>, refused: set<ObjectKey>, exportsFail: bool)
      returns (o: Outcome, report: Report)
      modifies this
      ensures o == Nil <==> && user in old(users) && old(users)[user] != UserDeleted
                            && KeysOf(old(rows), user) !! refused && !exportsFail && TriggerOk(old(rows), user, trigger)
      ensures o == if user !in old(users) then Err(NotFound)
                   else if old(users)[user] == UserDeleted then Err(Conflict)
                   else if !(KeysOf(old(rows), user) !! refused) || exportsFail then Err(Transient)
                   else if !TriggerOk(old(rows), user, trigger) then Err(Conflict) else Nil
      ensures o == Nil ==>
                && users == old(users)[user := UserDeleted] && rows == Purged(old(rows), user, trigger)
                && objects == old(objects) - KeysOf(old(rows), user)
                && report.filesRemoved == |KeysOf(old(rows), user)|
                && exports == old(exports) - {user}
                && report.exportsRemoved == (if user in old(exports) then old(exports)[user] else 0)
      ensures o != Nil ==> rows == old(rows) && (users == old(users) || users == old(users)[user := UserDeleting])
      ensures o != Nil && user in users && users[user] != UserDeleted ==> users[user] == UserDeleting
      ensures objects <= old(objects) && old(objects) - KeysOf(old(rows), user) <= objects
    {
      hide Purged, TriggerOk, KeysOf, RowsOf, RowsIn;
      report := Report(0, 0, 0, 0, 0, 0);
      var keys;
      o, keys := BeginAccountDeletion(user);
      if o != Nil { return; }
      var done, removed := RemoveObjects(keys, refused);
      if !done { return Err(Transient), report; }
      if exportsFail { return Err(Transient), report; }
      var exported := if user in exports then exports[user] else 0;
      exports := exports - {user};
      var stats;
      o, stats := PurgeAccountData(user, trigger);
      report := stats.(filesRemoved := removed, exportsRemoved := exported);
    }
  }

  lemma OneMoreTable(rows: map<RowId, Row>, user: User, tables: seq<Table>, table: Table, trigger: Option<RowId>)
    requires table !in tables
    ensures Without(Without(rows, user, tables, trigger), user, [table], trigger)
            == Without(rows, user, tables + [table], trigger)
    ensures RowsIn(Without(rows, user, tables, trigger), user, table) == RowsIn(rows, user, table)
  {
  }

  lemma PurgedRows(rows: map<RowId, Row>, user: User, trigger: Option<RowId>)
    requires TriggerOk(rows, user, trigger)
    ensures var after := Purged(rows, user, trigger);
            && (forall r :: r in after <==>
                  && r in rows
                  && (|| trigger == Some(r)
                      || !(rows[r].user == Some(user) || (rows[r].table == Messages && rows[r].sender == Some(user)))))
            && (forall r :: r in after ==>
                  after[r] == if trigger == Some(r) then Row(Messages, None, rows[r].key, None) else rows[r])
  {
  }

  /** After all tables, what is left of the user is the triggering message. */
  lemma AllTables(rows: map<RowId, Row>, user: User, tables: seq<Table>, trigger: Option<RowId>)
    requires forall t: Table :: t in tables
    ensures TriggerOk(rows, user, trigger) ==>
              RowsOf(Without(rows, user, tables, trigger), user) == if trigger.Some? then {trigger.value} else {}
    ensures TriggerOk(Without(rows, user, tables, trigger), user, trigger) == TriggerOk(rows, user, trigger)
    ensures TriggerOk(rows, user, trigger) ==>
              var w := Without(rows, user, tables, trigger);
              && (trigger.Some? ==> trigger.value in w && w[trigger.value] == rows[trigger.value])
              && Purged(rows, user, trigger) ==
                 if trigger.Some? then w[trigger.value := Anonymous(rows[trigger.value])] else w
  {
  }
}
