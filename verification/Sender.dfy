/** The outbox store, the producer and the sender as they run, each tied to the statements and steps above. */
module Sender {
  import opened Domain
  import opened Outbox
  import Runs = SenderRuns

  /** Ephemeral rows leave no trace; all others keep a status. */
  function Retired(t: Tables, id: RowId, job: JobId, ephemeral: bool, status: RowStatus): Tables {
    if ephemeral then Purged(t, id, job) else Marked(t, id, status)
  }

  /** The tables after the provider has answered. */
  function Answered(t: Tables, id: RowId, job: JobId, ephemeral: bool, period: Period,
                    result: Runs.SendResult): Tables {
    match result
    case Delivered => Completed(t, id, job, period)
    case Uncertain => Retired(t, id, job, ephemeral, Ambiguous)
    case Refused => Retired(t, id, job, ephemeral, RowStatus.Failed)
  }

  /** A reservation, and the call if it was granted. */
  function Attempted(t: Tables, id: RowId, job: JobId, ephemeral: bool, period: Period, limit: nat,
                     result: Runs.SendResult): Tables {
    var t1 := Reserved(t, id, period, limit);
    if Reservable(t, id, period, limit) then Answered(t1, id, job, ephemeral, period, result)
    else if ephemeral then Purged(t1, id, job)
    else t1
  }

  /** The deleted-user rule. */
  predicate MayServe(t: Tables, user: User, ephemeral: bool) {
    user in t.users && (t.users[user] != UserDeleted || ephemeral)
  }

  function Served(t: Tables, id: RowId, job: JobId, user: User, ephemeral: bool, enabled: bool, period: Period,
                  limit: nat,
                  result: Runs.SendResult): Tables {
    if !MayServe(t, user, ephemeral) then Purged(t, id, job)
    else if !enabled then Retired(t, id, job, ephemeral, Suppressed)
    else Attempted(t, id, job, ephemeral, period, limit, result)
  }

  /** The tables after one job, from any state of its row. */
  function Handled(t: Tables, id: RowId, job: JobId, user: User, enabled: bool, period: Period, limit: nat,
                   result: Runs.SendResult): Tables {
    if id !in t.rows then t.(jobs := t.jobs - {job})
    else
      match t.rows[id].status
      case Waiting => Served(t, id, job, user, t.rows[id].ephemeral, enabled, period, limit, result)
      case Sending => Retired(t, id, job, t.rows[id].ephemeral, Ambiguous)
      case _ => t
  }

  /** A row is gone or in a final status, and no other row changed. */
  ghost predicate Settles(t: Tables, t': Tables, id: RowId) {
    && (id in t'.rows ==> t'.rows[id].status in {Sent, Ambiguous, RowStatus.Failed, Suppressed})
    && t'.rows - {id} == t.rows - {id}
  }

  lemma RetiredSettles(t: Tables, id: RowId, job: JobId, ephemeral: bool, status: RowStatus)
    requires status in {Sent, Ambiguous, RowStatus.Failed, Suppressed}
    ensures Settles(t, Retired(t, id, job, ephemeral, status), id)
  {
  }

  lemma AttemptSettles(t: Tables, id: RowId, job: JobId, period: Period, limit: nat, result: Runs.SendResult)
    requires id in t.rows && t.rows[id].status == Waiting
    ensures Settles(t, Attempted(t, id, job, t.rows[id].ephemeral, period, limit, result), id)
  {
    hide Settles, Retired, WithinQuota;
    var t1, ephemeral := Reserved(t, id, period, limit), t.rows[id].ephemeral;
    if Reservable(t, id, period, limit) {
      match result
      case Delivered => CompletedSettles(t1, id, job, period);
      case Uncertain => RetiredSettles(t1, id, job, ephemeral, Ambiguous);
      case Refused => RetiredSettles(t1, id, job, ephemeral, RowStatus.Failed);
    }
    ReservationKeepsOthers(t, id, job, period, limit, Attempted(t, id, job, ephemeral, period, limit, result));
  }

  lemma CompletedSettles(t: Tables, id: RowId, job: JobId, period: Period)
    requires Completable(t, id)
    ensures Settles(t, Completed(t, id, job, period), id)
  {
  }

  lemma ReservationKeepsOthers(t: Tables, id: RowId, job: JobId, period: Period, limit: nat, t': Tables)
    requires id in t.rows && t.rows[id].status == Waiting
    ensures Settles(Reserved(t, id, period, limit), t', id) ==> Settles(t, t', id)
    ensures !Reservable(t, id, period, limit) ==>
              var t1 := Reserved(t, id, period, limit); Settles(t, t1, id) && Settles(t, Purged(t1, id, job), id)
  {
    hide WithinQuota;
    var t1 := Reserved(t, id, period, limit);
    assert t1.rows - {id} == t.rows - {id};
  }

  /** A handled row is gone or settled, whatever the provider, the switch, the owner and the quota did. */
  lemma HandledIsSettled(t: Tables, id: RowId, job: JobId, user: User, enabled: bool, period: Period, limit: nat,
                         result: Runs.SendResult)
    ensures Settles(t, Handled(t, id, job, user, enabled, period, limit, result), id)
  {
    hide Attempted, Retired;
    if id in t.rows {
      AttemptSettlesIfWaiting(t, id, job, period, limit, result);
      RetiredSettles(t, id, job, t.rows[id].ephemeral, Suppressed);
      RetiredSettles(t, id, job, t.rows[id].ephemeral, Ambiguous);
    }
  }

  lemma AttemptSettlesIfWaiting(t: Tables, id: RowId, job: JobId, period: Period, limit: nat, result: Runs.SendResult)
    requires id in t.rows
    ensures t.rows[id].status == Waiting ==>
              Settles(t, Attempted(t, id, job, t.rows[id].ephemeral, period, limit, result), id)
  {
    hide Attempted, Settles;
    if t.rows[id].status == Waiting { AttemptSettles(t, id, job, period, limit, result); }
  }

  /** An attempt within the quota; `answer` is the status that belongs to the result. */
  lemma AttemptOutcome(t: Tables, id: RowId, job: JobId, ephemeral: bool, period: Period, limit: nat,
                       result: Runs.SendResult, answer: RowStatus)
    requires id in t.rows && t.rows[id].status == Waiting && t.rows[id].ephemeral == ephemeral
    requires WithinQuota(t, period, limit)
    requires answer == match result
                       case Delivered => Sent
                       case Uncertain => Ambiguous
                       case Refused => RowStatus.Failed
    ensures var t', row := Attempted(t, id, job, ephemeral, period, limit, result), t.rows[id];
            && (if ephemeral then id !in t'.rows && job !in t'.jobs
                else t'.jobs == t.jobs && id in t'.rows
                     && t'.rows[id] == row.(attempts := row.attempts + 1, status := answer))
            && t'.users == t.users && t'.attempted == t.attempted[period := Count(t.attempted, period) + 1]
            && t'.delivered == (if result == Runs.Delivered
                                then t.delivered[period := Count(t.delivered, period) + 1] else t.delivered)
  {
    hide Count, WithinQuota;
  }

  /** A row that waits: what becomes of it, of its job and of the counters. */
  lemma WaitingOutcome(t: Tables, id: RowId, job: JobId, user: User, enabled: bool, period: Period, limit: nat,
                       result: Runs.SendResult)
    requires id in t.rows && t.rows[id].status == Waiting
    ensures var t', row := Handled(t, id, job, user, enabled, period, limit, result), t.rows[id];
            var served := user in t.users && (t.users[user] == UserDeleted ==> row.ephemeral);
            var calls := served && enabled && (limit > 0 && period in t.attempted ==> t.attempted[period] < limit);
            && (!served || row.ephemeral ==> id !in t'.rows && job !in t'.jobs)
            && (served && !row.ephemeral ==>
                  && t'.jobs == t.jobs && id in t'.rows
                  && t'.rows[id] == if !calls then row.(status := Suppressed)
                                    else row.(attempts := row.attempts + 1,
                                              status := match result
                                                        case Delivered => Sent
                                                        case Uncertain => Ambiguous
                                                        case Refused => RowStatus.Failed))
            && t'.users == t.users
            && t'.attempted == (if calls then t.attempted[period := Count(t.attempted, period) + 1] else t.attempted)
            && t'.delivered == (if calls && result == Runs.Delivered
                                then t.delivered[period := Count(t.delivered, period) + 1] else t.delivered)
  {
    hide Answered;
    if WithinQuota(t, period, limit) {
      AttemptOutcome(t, id, job, t.rows[id].ephemeral, period, limit, result,
                     match result
                     case Delivered => Sent
                     case Uncertain => Ambiguous
                     case Refused => RowStatus.Failed);
    }
  }

  /** A row that no longer waits: an interrupted call is ambiguous, and anything else stays. */
  lemma StaleOutcome(t: Tables, id: RowId, job: JobId, user: User, enabled: bool, period: Period, limit: nat,
                     result: Runs.SendResult)
    requires id in t.rows ==> t.rows[id].status != Waiting
    ensures var t' := Handled(t, id, job, user, enabled, period, limit, result);
            if id !in t.rows then t' == t.(jobs := t.jobs - {job})
            else if t.rows[id].status != Sending then t' == t
            else if t.rows[id].ephemeral then t' == t.(rows := t.rows - {id}, jobs := t.jobs - {job})
            else t' == t.(rows := t.rows[id := t.rows[id].(status := Ambiguous)])
  {
  }

  /** Handling the same job again, under any other circumstances, changes nothing. */
  lemma HandlingIsIdempotent(t: Tables, id: RowId, job: JobId, user: User, enabled: bool, period: Period, limit: nat,
                             result: Runs.SendResult, enabled': bool, period': Period, limit': nat,
                             result': Runs.SendResult)
    ensures var t' := Handled(t, id, job, user, enabled, period, limit, result);
            Handled(t', id, job, user, enabled', period', limit', result') == t'
  {
    hide Attempted, Retired, Served;
    var t' := Handled(t, id, job, user, enabled, period, limit, result);
    HandledIsSettled(t, id, job, user, enabled, period, limit, result);
    if id !in t'.rows { NoJobLeft(t, id, job, user, enabled, period, limit, result); }
    if id !in t'.rows { assert t'.jobs - {job} == t'.jobs; }
  }

  /** A row that is gone took its job along. */
  lemma NoJobLeft(t: Tables, id: RowId, job: JobId, user: User, enabled: bool, period: Period, limit: nat,
                  result: Runs.SendResult)
    requires id !in Handled(t, id, job, user, enabled, period, limit, result).rows
    ensures job !in Handled(t, id, job, user, enabled, period, limit, result).jobs
  {
    hide Attempted, Reserved;
    if id in t.rows && t.rows[id].status == Waiting && MayServe(t, user, t.rows[id].ephemeral) && enabled {
      NoJobAfterAttempt(t, id, job, t.rows[id].ephemeral, period, limit, result);
    }
  }

  lemma NoJobAfterAttempt(t: Tables, id: RowId, job: JobId, ephemeral: bool, period: Period, limit: nat,
                          result: Runs.SendResult)
    requires id in t.rows && id !in Attempted(t, id, job, ephemeral, period, limit, result).rows
    ensures job !in Attempted(t, id, job, ephemeral, period, limit, result).jobs
  {
    hide WithinQuota, Count;
    var t1 := Reserved(t, id, period, limit);
    assert id in t1.rows;
  }

  class OutboxDb {
    var rows: map<RowId, Row>
    var jobs: map<JobId, SendJob>
    var users: map<User, UserStatus>
    var attempted: map<Period, nat>
    var delivered: map<Period, nat>

    ghost function Tab(): Tables
      reads this
    {
      Tables(rows, jobs, users, attempted, delivered)
    }

    constructor (users: map<User, UserStatus>)
      ensures Tab() == Tables(map[], map[], users, map[], map[])
    {
      this.users := users;
      rows, jobs, attempted, delivered := map[], map[], map[], map[];
    }

    method FindByKey(key: Key) returns (found: Option<RowId>)
      ensures found.None? <==> !KeyTaken(Tab(), key)
      ensures found.Some? ==> found.value in rows && rows[found.value].key == key
    {
      var rest := rows.Keys;
      found := None;
      while rest != {}
        invariant rest <= rows.Keys
        invariant forall id :: id in rows && id !in rest ==> rows[id].key != key
        decreases |rest|
      {
        var id :| id in rest;
        if rows[id].key == key { return Some(id); }
        rest := rest - {id};
      }
    }

    method FindJob(id: RowId) returns (found: bool)
      ensures found <==> JobTaken(Tab(), id)
    {
      var rest := jobs.Keys;
      while rest != {}
        invariant rest <= jobs.Keys
        invariant forall j :: j in jobs && j !in rest ==> jobs[j].outbound != id
        decreases |rest|
      {
        var j :| j in rest;
        if jobs[j].outbound == id { return true; }
        rest := rest - {j};
      }
      found := false;
    }

    method EnqueueOutbound(id: RowId, key: Key, user: User, ephemeral: bool) returns (created: bool)
      requires id !in rows
      modifies this
      ensures Tab() == Inserted(old(Tab()), id, key, user, ephemeral)
      ensures created <==> !KeyTaken(old(Tab()), key)
      ensures rows == if created then old(rows)[id := Row(key, user, ephemeral, Waiting, 0)] else old(rows)
    {
      var found := FindByKey(key);
      created := found.None?;
      if created { rows := rows[id := Row(key, user, ephemeral, Waiting, 0)]; }
    }

    method EnqueueJob(job: JobId, id: RowId, user: User)
      requires job !in jobs
      modifies this
      ensures Tab() == JobInserted(old(Tab()), job, id, user)
      ensures jobs == if JobTaken(old(Tab()), id) then old(jobs) else old(jobs)[job := SendJob(id, user)]
    {
      var found := FindJob(id);
      if !found { jobs := jobs[job := SendJob(id, user)]; }
    }

    method BeginOutboundAttempt(id: RowId, period: Period, limit: nat) returns (o: Outcome, allowed: bool)
      modifies this
      ensures Tab() == Reserved(old(Tab()), id, period, limit)
      ensures o == if id in old(rows) then Nil else Err(NotFound)
      ensures allowed <==> Reservable(old(Tab()), id, period, limit)
      ensures allowed ==>
                && id in old(rows) && old(rows)[id].status == Waiting
                && (limit > 0 ==> Count(old(attempted), period) < limit)
                && rows == old(rows)[id := old(rows)[id].(status := Sending, attempts := old(rows)[id].attempts + 1)]
                && attempted == old(attempted)[period := Count(old(attempted), period) + 1]
      ensures !allowed ==> attempted == old(attempted)
      ensures !allowed && id in old(rows) && old(rows)[id].status == Waiting ==>
                && 0 < limit <= Count(old(attempted), period)
                && rows == old(rows)[id := old(rows)[id].(status := Suppressed)]
      ensures id in old(rows) && old(rows)[id].status != Waiting ==> rows == old(rows)
    {
      if id !in rows { return Err(NotFound), false; }
      if rows[id].status != Waiting { return Nil, false; }
      var count := if period in attempted then attempted[period] else 0;
      if limit > 0 && count >= limit {
        rows := rows[id := rows[id].(status := Suppressed)];
        return Nil, false;
      }
      attempted := attempted[period := count + 1];
      rows := rows[id := rows[id].(status := Sending, attempts := rows[id].attempts + 1)];
      o, allowed := Nil, true;
    }

    method CompleteOutboundSend(id: RowId, job: JobId, period: Period) returns (o: Outcome)
      modifies this
      ensures Tab() == Completed(old(Tab()), id, job, period)
      ensures o == if id in old(rows) && old(rows)[id].status == Sending then Nil else Err(Conflict)
      ensures o == Nil ==>
                && delivered == old(delivered)[period := Count(old(delivered), period) + 1]
                && rows == (if old(rows)[id].ephemeral then old(rows) - {id}
                            else old(rows)[id := old(rows)[id].(status := Sent)])
                && jobs == (if old(rows)[id].ephemeral then old(jobs) - {job} else old(jobs))
      ensures o != Nil ==> Tab() == old(Tab())
    {
      if id !in rows || rows[id].status != Sending { return Err(Conflict); }
      delivered := delivered[period := (if period in delivered then delivered[period] else 0) + 1];
      if rows[id].ephemeral {
        rows := rows - {id};
        jobs := jobs - {job};
      } else {
        rows := rows[id := rows[id].(status := Sent)];
      }
      o := Nil;
    }

    method MarkOutboundStatus(id: RowId, status: RowStatus) returns (o: Outcome)
      modifies this
      ensures Tab() == Marked(old(Tab()), id, status)
      ensures o == if id in old(rows) then Nil else Err(NotFound)
      ensures rows == if o == Nil then old(rows)[id := old(rows)[id].(status := status)] else old(rows)
    {
      if id !in rows { return Err(NotFound); }
      rows := rows[id := rows[id].(status := status)];
      o := Nil;
    }

    method PurgeOutboundAndJob(id: RowId, job: JobId)
      modifies this
      ensures Tab() == Purged(old(Tab()), id, job)
      ensures rows == old(rows) - {id} && jobs == old(jobs) - {job}
    {
      rows := rows - {id};
      jobs := jobs - {job};
    }

    method Retire(id: RowId, job: JobId, ephemeral: bool, status: RowStatus) returns (o: Outcome)
      modifies this
      ensures Tab() == Retired(old(Tab()), id, job, ephemeral, status)
      ensures o == if ephemeral || id in old(rows) then Nil else Err(NotFound)
    {
      o := Nil;
      if ephemeral { PurgeOutboundAndJob(id, job); } else { o := MarkOutboundStatus(id, status); }
    }

    method DeleteQueueJob(job: JobId)
      modifies this
      ensures Tab() == old(Tab()).(jobs := old(jobs) - {job})
    {
      jobs := jobs - {job};
    }

    /** Reply and DeletionConfirmation. A replayed key inserts nothing and repairs a missing job; afterwards
        exactly one row has the key, and if it still waits to be sent, a job names it. */
    method Reply(id: RowId, job: JobId, key: Key, user: User, ephemeral: bool)
      requires id !in rows && job !in jobs
      requires forall i, j :: i in rows && j in rows && rows[i].key == rows[j].key ==> i == j
      modifies this
      ensures forall other :: other in old(rows) ==> other in rows && rows[other] == old(rows)[other]
      ensures exists r :: r in rows && rows[r].key == key
                          && (forall other :: other in rows && rows[other].key == key ==> other == r)
                          && (rows[r].status == Waiting ==> JobTaken(Tab(), r))
      ensures rows == if KeyTaken(old(Tab()), key) then old(rows)
                      else old(rows)[id := Row(key, user, ephemeral, Waiting, 0)]
      ensures jobs == old(jobs) || (job in jobs && jobs[job].user == user && jobs == old(jobs)[job := jobs[job]])
    {
      var created := EnqueueOutbound(id, key, user, ephemeral);
      var target := id;
      if !created {
        var found := FindByKey(key);
        target := found.value;
        if rows[target].status != Waiting { return; }
      }
      EnqueueJob(job, target, user);
      assert JobTaken(Tab(), target) by {
        if job in jobs && jobs[job].outbound == target {}
      }
    }

    /** Handles one job under the user lock. The provider is called exactly when the row waits, its owner may
        be served, sending is on and the month has quota left. Whatever the handler does is a run of the
        interleaving model by one lane, so its theorems hold for this code. */
    method HandleLocked(job: JobId, id: RowId, user: User, enabled: bool, period: Period, limit: nat,
                        result: Runs.SendResult, ghost s: Runs.State, ghost lane: Runs.Lane)
      returns (o: Outcome, called: bool, ghost trace: seq<Runs.Step>)
      requires s.t == Tab() && s.limit == limit && lane !in s.lanes
      modifies this
      ensures Runs.ValidRun(s, trace)
      ensures var s' := Runs.Run(s, trace); s'.t == Tab() && s'.lanes == s.lanes
      ensures var s' := Runs.Run(s, trace); s'.sends == s.sends + if called then multiset{id} else multiset{}
      ensures called <==>
                && Reservable(old(Tab()), id, period, limit) && enabled && user in old(users)
                && (old(users)[user] != UserDeleted || old(rows)[id].ephemeral)
      ensures o == Nil
      ensures Tab() == Handled(old(Tab()), id, job, user, enabled, period, limit, result)
      ensures called && old(rows)[id].ephemeral ==> id !in rows && job !in jobs
      ensures called && !old(rows)[id].ephemeral ==>
                && id in rows
                && rows[id].status == match result
                                      case Delivered => Sent
                                      case Uncertain => Ambiguous
                                      case Refused => RowStatus.Failed
    {
      hide Runs.ValidRun, Runs.Run, Purged, Marked, Reserved, Inserted, JobInserted, Completed, AccountPurged, Served,
        Runs.AfterCheck, Runs.AfterReserve, Runs.AfterRecord;
      called := false;
      ghost var now;
      if id !in rows || rows[id].status != Waiting {
        o, trace := HandleStale(job, id, user, s, lane);
        return;
      }
      Runs.NoSteps(s);
      trace, now := Runs.Extend(s, [], s, Runs.Load(lane, job, id, user));
      WaitingOutcome(Tab(), id, job, user, enabled, period, limit, result);
      o, called, trace := HandleWaiting(job, id, user, enabled, period, limit, result, s, trace, now, lane);
    }

    /** A row that is gone, settled, or was left in sending by a lane that stopped during its call. */
    method HandleStale(job: JobId, id: RowId, user: User, ghost s: Runs.State, ghost lane: Runs.Lane)
      returns (o: Outcome, ghost trace: seq<Runs.Step>)
      requires s.t == Tab() && lane !in s.lanes && (id in rows ==> rows[id].status != Waiting)
      modifies this
      ensures Runs.ValidRun(s, trace)
      ensures var s' := Runs.Run(s, trace); s'.t == Tab() && s'.lanes == s.lanes && s'.sends == s.sends
      ensures Tab() == if id !in old(rows) then old(Tab()).(jobs := old(jobs) - {job})
                       else if old(rows)[id].status == Sending
                       then Retired(old(Tab()), id, job, old(rows)[id].ephemeral, Ambiguous)
                       else old(Tab())
      ensures o == Nil
    {
      hide Runs.ValidRun, Runs.Run, Purged, Marked, Reserved, Inserted, JobInserted, Completed, AccountPurged,
        Runs.AfterCheck, Runs.AfterReserve, Runs.AfterRecord;
      Runs.NoSteps(s);
      ghost var now;
      trace, now := Runs.Extend(s, [], s, Runs.Load(lane, job, id, user));
      o := Nil;
      if id !in rows {
        DeleteQueueJob(job);
        trace, now := Runs.Extend(s, trace, now, Runs.Close(lane));
      } else if rows[id].status == Sending {
        o := Retire(id, job, rows[id].ephemeral, Ambiguous);
        trace, now := Runs.Extend(s, trace, now, Runs.Close(lane));
      }
    }

    /** A waiting row: the owner, the kill switch, then the attempt. */
    method HandleWaiting(job: JobId, id: RowId, user: User, enabled: bool, period: Period, limit: nat,
                         result: Runs.SendResult,
                         ghost s: Runs.State, ghost before: seq<Runs.Step>, ghost now: Runs.State,
                         ghost lane: Runs.Lane)
      returns (o: Outcome, called: bool, ghost trace: seq<Runs.Step>)
      requires Runs.ValidRun(s, before) && now == Runs.Run(s, before) && now.t == Tab() && now.limit == limit
      requires id in rows && rows[id].status == Waiting
      requires lane in now.lanes && now.lanes[lane] == Runs.Loaded(id, job, user, rows[id].ephemeral)
      modifies this
      ensures Runs.ValidRun(s, trace)
      ensures var s' := Runs.Run(s, trace);
              && s'.t == Tab() && s'.lanes == now.lanes - {lane}
              && s'.sends == now.sends + if called then multiset{id} else multiset{}
      ensures called <==>
                && Reservable(old(Tab()), id, period, limit) && enabled && user in old(users)
                && (old(users)[user] != UserDeleted || old(rows)[id].ephemeral)
      ensures o == Nil
      ensures Tab() == Served(old(Tab()), id, job, user, old(rows)[id].ephemeral, enabled, period, limit, result)
    {
      hide Runs.ValidRun, Runs.Run, Purged, Marked, Reserved, Inserted, JobInserted, Completed, AccountPurged,
        Attempted, Runs.AfterLoad, Runs.AfterReserve, Runs.AfterRecord;
      var ephemeral := rows[id].ephemeral;
      if user !in users || (users[user] == UserDeleted && !ephemeral) || !enabled {
        o, trace := Decline(job, id, user, enabled, ephemeral, s, before, now, lane);
        return o, false, trace;
      }
      ghost var s1;
      trace, s1 := Runs.Extend(s, before, now, Runs.Check(lane, enabled));
      o, called, trace := Attempt(job, id, user, period, limit, result, ephemeral, s, trace, s1, lane);
    }

    /** The owner may not be served, or sending is off. */
    method Decline(job: JobId, id: RowId, user: User, enabled: bool, ephemeral: bool,
                   ghost s: Runs.State, ghost before: seq<Runs.Step>, ghost now: Runs.State, ghost lane: Runs.Lane)
      returns (o: Outcome, ghost trace: seq<Runs.Step>)
      requires Runs.ValidRun(s, before) && now == Runs.Run(s, before) && now.t == Tab()
      requires id in rows && (!MayServe(Tab(), user, ephemeral) || !enabled)
      requires lane in now.lanes && now.lanes[lane] == Runs.Loaded(id, job, user, ephemeral)
      modifies this
      ensures Runs.ValidRun(s, trace)
      ensures var s' := Runs.Run(s, trace); s'.t == Tab() && s'.lanes == now.lanes - {lane} && s'.sends == now.sends
      ensures o == Nil
      ensures Tab() == if !MayServe(old(Tab()), user, ephemeral) then Purged(old(Tab()), id, job)
                       else Retired(old(Tab()), id, job, ephemeral, Suppressed)
    {
      hide Runs.ValidRun, Runs.Run, Purged, Marked, Reserved, Inserted, JobInserted, Completed, AccountPurged,
        Runs.AfterLoad, Runs.AfterReserve, Runs.AfterRecord;
      ghost var s1;
      trace, s1 := Runs.Extend(s, before, now, Runs.Check(lane, enabled));
      o := Nil;
      if user !in users || (users[user] == UserDeleted && !ephemeral) {
        PurgeOutboundAndJob(id, job);
      } else {
        o := Retire(id, job, ephemeral, Suppressed);
      }
      trace, s1 := Runs.Extend(s, trace, s1, Runs.Close(lane));
    }

    /** Reserves a provider call, makes it and records what came of it. */
    method Attempt(job: JobId, id: RowId, user: User, period: Period, limit: nat, result: Runs.SendResult,
                   ephemeral: bool,
                   ghost s: Runs.State, ghost before: seq<Runs.Step>, ghost now: Runs.State, ghost lane: Runs.Lane)
      returns (o: Outcome, called: bool, ghost trace: seq<Runs.Step>)
      requires Runs.ValidRun(s, before) && now == Runs.Run(s, before) && now.t == Tab() && now.limit == limit
      requires lane in now.lanes && now.lanes[lane] == Runs.Cleared(id, job, user, ephemeral)
      requires id in rows && rows[id].status == Waiting
      modifies this
      ensures Runs.ValidRun(s, trace)
      ensures var s' := Runs.Run(s, trace);
              && s'.t == Tab() && s'.lanes == now.lanes - {lane}
              && s'.sends == now.sends + if called then multiset{id} else multiset{}
      ensures called <==> Reservable(old(Tab()), id, period, limit)
      ensures o == Nil
      ensures Tab() == Attempted(old(Tab()), id, job, ephemeral, period, limit, result)
    {
      hide Runs.ValidRun, Runs.Run, Purged, Marked, Inserted, JobInserted, Completed, AccountPurged,
        Runs.AfterLoad, Runs.AfterCheck, Runs.AfterReserve, Runs.AfterRecord, Answered, Reserved, WithinQuota;
      var allowed;
      ghost var s1;
      o, allowed, trace, s1 := Reserve(job, id, user, period, limit, ephemeral, s, before, now, lane);
      if o != Nil { return o, false, trace; }
      if !allowed {
        if ephemeral {
          PurgeOutboundAndJob(id, job);
          trace, s1 := Runs.Extend(s, trace, s1, Runs.Close(lane));
        }
        return Nil, false, trace;
      }
      called := true;
      trace, s1 := Runs.Extend(s, trace, s1, Runs.Send(lane, result));
      o, trace := RecordResult(job, id, period, result, ephemeral, s, trace, s1, lane);
    }

    /** The reservation, and where it leaves the lane. */
    method Reserve(job: JobId, id: RowId, user: User, period: Period, limit: nat, ephemeral: bool,
                   ghost s: Runs.State, ghost before: seq<Runs.Step>, ghost now: Runs.State, ghost lane: Runs.Lane)
      returns (o: Outcome, allowed: bool, ghost trace: seq<Runs.Step>, ghost s': Runs.State)
      requires Runs.ValidRun(s, before) && now == Runs.Run(s, before) && now.t == Tab() && now.limit == limit
      requires lane in now.lanes && now.lanes[lane] == Runs.Cleared(id, job, user, ephemeral)
      requires id in rows && rows[id].status == Waiting
      modifies this
      ensures Runs.ValidRun(s, trace) && s' == Runs.Run(s, trace) && s'.t == Tab() && s'.sends == now.sends
      ensures o == Nil && (allowed <==> Reservable(old(Tab()), id, period, limit))
      ensures Tab() == Reserved(old(Tab()), id, period, limit)
      ensures allowed ==>
                && Completable(Tab(), id)
                && s'.lanes == now.lanes[lane := Runs.Calling(id, job, user, ephemeral, period)]
      ensures !allowed ==>
                s'.lanes == if ephemeral then now.lanes[lane := Runs.Closed(id, job, user, Runs.Purge)]
                            else now.lanes - {lane}
    {
      hide Runs.ValidRun, Runs.Run, Purged, Marked, Inserted, JobInserted, Completed, AccountPurged,
        Runs.AfterLoad, Runs.AfterCheck, Runs.AfterRecord;
      o, allowed := BeginOutboundAttempt(id, period, limit);
      trace, s' := Runs.Extend(s, before, now, Runs.Reserve(lane, period));
    }

    /** The last statement of the handler, after the provider call. */
    method RecordResult(job: JobId, id: RowId, period: Period, result: Runs.SendResult, ephemeral: bool,
                        ghost s: Runs.State, ghost before: seq<Runs.Step>, ghost now: Runs.State, ghost lane: Runs.Lane)
      returns (o: Outcome, ghost trace: seq<Runs.Step>)
      requires Runs.ValidRun(s, before) && now == Runs.Run(s, before) && now.t == Tab()
      requires lane in now.lanes && now.lanes[lane].Returned? && now.lanes[lane].id == id && now.lanes[lane].job == job
      requires now.lanes[lane].period == period && now.lanes[lane].result == result
      requires now.lanes[lane].ephemeral == ephemeral
      modifies this
      ensures Runs.ValidRun(s, trace)
      ensures var s' := Runs.Run(s, trace); s'.t == Tab() && s'.lanes == now.lanes - {lane} && s'.sends == now.sends
      ensures o == if result == Runs.Delivered then (if Completable(old(Tab()), id) then Nil else Err(Conflict))
                   else if ephemeral || id in old(rows) then Nil else Err(NotFound)
      ensures Tab() == Answered(old(Tab()), id, job, ephemeral, period, result)
    {
      hide Runs.ValidRun, Runs.Run;
      o := Nil;
      if result == Runs.Delivered {
        o := CompleteOutboundSend(id, job, period);
      } else if ephemeral {
        PurgeOutboundAndJob(id, job);
      } else {
        o := MarkOutboundStatus(id, if result == Runs.Uncertain then Ambiguous else Failed);
      }
      ghost var last := now;
      trace, last := Runs.Extend(s, before, now, Runs.Record(lane));
    }
  }
}
