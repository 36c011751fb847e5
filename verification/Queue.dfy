/**
The leased job queue. Every method of the queue is one SQL statement, except `Nack`, which reads the
row and then writes it; another worker may reclaim the job between the two. A run interleaves the
statements of any number of workers, and a worker that stops issuing statements has crashed.
*/
module Queue {
  import opened Domain

  type JobId = nat
  type Token = nat
  type Lane = nat

  /** Instants are nanoseconds. */
  const SECOND: int := 1_000_000_000
  const DEFAULT_MAX_ATTEMPTS: nat := 5

  datatype JobStatus = Waiting | Running | Done | Dead

  datatype Job = Job(
    kind: string, dedupe: Option<string>, status: JobStatus, attempts: nat, maxAttempts: nat,
    runAfter: int, visibleAt: int, token: Option<Token>, createdAt: int)

  type Table = map<JobId, Job>

  // ---------------------------------------------------------------- statements

  ghost predicate Duplicate(t: Table, dedupe: Option<string>) {
    dedupe.Some? && exists id :: id in t && t[id].dedupe == dedupe
  }

  function EffectiveMax(maxAttempts: int): (m: nat)
    ensures m >= 1
  {
    if maxAttempts <= 0 then DEFAULT_MAX_ATTEMPTS else maxAttempts
  }

  function NewJob(kind: string, dedupe: Option<string>, maxAttempts: int, now: int): Job {
    Job(kind, dedupe, Waiting, 0, EffectiveMax(maxAttempts), now, now, None, now)
  }

  predicate Ready(j: Job, kinds: set<string>, now: int) {
    && j.kind in kinds
    && ((j.status == Waiting && j.runAfter <= now) || (j.status == Running && j.visibleAt <= now))
  }

  function Claimed(j: Job, token: Token, until: int): Job {
    j.(status := Running, attempts := j.attempts + 1, token := Some(token), visibleAt := until)
  }

  predicate Owns(t: Table, id: JobId, token: Token) {
    id in t && t[id].token == Some(token) && t[id].status == Running
  }

  function Extended(t: Table, id: JobId, token: Token, until: int): Table {
    if Owns(t, id, token) then t[id := t[id].(visibleAt := until)] else t
  }

  function Acknowledged(t: Table, id: JobId, token: Token): Table {
    if Owns(t, id, token) then t[id := t[id].(status := Done, token := None)] else t
  }

  function Pow2(n: nat): (p: nat)
    ensures p >= 1
  {
    if n == 0 then 1 else 2 * Pow2(n - 1)
  }

  /** Seconds a rejected job waits: two to the number of attempts, at most five minutes. */
  function Backoff(attempts: nat): nat {
    if Pow2(attempts) < 300 then Pow2(attempts) else 300
  }

  /** The wait starts at one second and doubles with every attempt up to five minutes. */
  lemma BackoffDoubles(attempts: nat)
    ensures Backoff(0) == 1
    ensures Backoff(attempts + 1) == if Backoff(attempts) <= 150 then 2 * Backoff(attempts) else 300
  {
    PowersAvoid(attempts);
  }

  /** No power of two lies between 129 and 255. */
  lemma {:induction false} PowersAvoid(n: nat)
    ensures Pow2(n) <= 128 || Pow2(n) >= 256
    ensures Pow2(n) <= 128 ==> n <= 7
  {
    if n > 0 { PowersAvoid(n - 1); }
    assert Pow2(7) == 128;
  }

  /** The second statement of Nack; `attempts` is what the first statement read. */
  function Rejected(t: Table, id: JobId, token: Token, now: int, attempts: nat): Table {
    if Owns(t, id, token) then
      var j := t[id];
      t[id := j.(status := if j.attempts >= j.maxAttempts then Dead else Waiting,
                 runAfter := now + Backoff(attempts) * SECOND, token := None)]
    else t
  }

  // ---------------------------------------------------------------- the queue object

  datatype QueueError = Duplicated | StaleClaim

  class PgQueue {
    var table: Table

    constructor ()
      ensures table == map[]
    {
      table := map[];
    }

    method Enqueue(id: JobId, kind: string, dedupe: Option<string>, maxAttempts: int, now: int)
      returns (error: Option<QueueError>)
      requires id !in table
      modifies this
      ensures error == if Duplicate(old(table), dedupe) then Some(Duplicated) else None
      ensures table == if error.Some? then old(table)
                       else
                         var limit := if maxAttempts <= 0 then 5 else maxAttempts;
                         old(table)[id := Job(kind, dedupe, Waiting, 0, limit, now, now, None, now)]
    {
      if dedupe.Some? {
        var rest := table.Keys;
        while rest != {}
          invariant rest <= table.Keys
          invariant forall other :: other in table && other !in rest ==> table[other].dedupe != dedupe
          invariant table == old(table)
          decreases |rest|
        {
          var other :| other in rest;
          if table[other].dedupe == dedupe { return Some(Duplicated); }
          rest := rest - {other};
        }
      }
      table := table[id := NewJob(kind, dedupe, maxAttempts, now)];
      error := None;
    }

    /** Claims the oldest ready job whose row no other claimer has locked. */
    method Dequeue(kinds: set<string>, token: Token, now: int, visibility: int, locked: set<JobId>)
      returns (claim: Option<JobId>)
      modifies this
      ensures claim.None? ==> table == old(table)
      ensures claim.None? ==>
                forall id :: id in table && id !in locked && table[id].kind in kinds ==>
                  match table[id].status
                  case Waiting => now < table[id].runAfter
                  case Running => now < table[id].visibleAt
                  case _ => true
      ensures claim.Some? ==> claim.value in old(table) && claim.value !in locked
      ensures claim.Some? ==>
                var j := old(table)[claim.value];
                && j.kind in kinds && j.status in {Waiting, Running}
                && (j.status == Waiting ==> j.runAfter <= now)
                && (j.status == Running ==> j.visibleAt <= now)
                && table == old(table)[claim.value := j.(status := Running, attempts := j.attempts + 1,
                                                         token := Some(token), visibleAt := now + visibility)]
      ensures claim.Some? ==>
                forall id :: id in old(table) && id !in locked && Ready(old(table)[id], kinds, now)
                             ==> old(table)[claim.value].createdAt <= old(table)[id].createdAt
    {
      var rest := table.Keys - locked;
      claim := None;
      while rest != {}
        invariant rest <= table.Keys - locked
        invariant table == old(table)
        invariant claim.None? ==>
                    forall id :: id in table && id !in locked && id !in rest ==> !Ready(table[id], kinds, now)
        invariant claim.Some? ==>
                    && claim.value in table && claim.value !in locked && Ready(table[claim.value], kinds, now)
                    && forall id :: id in table && id !in locked && id !in rest && Ready(table[id], kinds, now)
                                    ==> table[claim.value].createdAt <= table[id].createdAt
        decreases |rest|
      {
        var id :| id in rest;
        rest := rest - {id};
        if Ready(table[id], kinds, now)
           && (claim.None? || table[id].createdAt < table[claim.value].createdAt) {
          claim := Some(id);
        }
      }
      if claim.Some? {
        table := table[claim.value := Claimed(table[claim.value], token, now + visibility)];
      }
    }

    method Heartbeat(id: JobId, token: Token, now: int, visibility: int) returns (error: Option<QueueError>)
      modifies this
      ensures error == if Owns(old(table), id, token) then None else Some(StaleClaim)
      ensures table == if error.Some? then old(table)
                       else old(table)[id := old(table)[id].(visibleAt := now + visibility)]
    {
      if !Owns(table, id, token) { return Some(StaleClaim); }
      table := table[id := table[id].(visibleAt := now + visibility)];
      error := None;
    }

    method Ack(id: JobId, token: Token) returns (error: Option<QueueError>)
      modifies this
      ensures error == if Owns(old(table), id, token) then None else Some(StaleClaim)
      ensures table == if error.Some? then old(table)
                       else old(table)[id := old(table)[id].(status := Done, token := None)]
    {
      if !Owns(table, id, token) { return Some(StaleClaim); }
      table := table[id := table[id].(status := Done, token := None)];
      error := None;
    }

    method Nack(id: JobId, token: Token, now: int) returns (error: Option<QueueError>)
      modifies this
      ensures error == if Owns(old(table), id, token) then None else Some(StaleClaim)
      ensures table == if error.Some? then old(table)
                       else
                         var j := old(table)[id];
                         old(table)[id := j.(status := if j.attempts < j.maxAttempts then Waiting else Dead,
                                             runAfter := now + Backoff(j.attempts) * 1_000_000_000, token := None)]
    {
      if !Owns(table, id, token) { return Some(StaleClaim); }
      var attempts := table[id].attempts;
      var status := if attempts >= table[id].maxAttempts then Dead else Waiting;
      table := table[id := table[id].(status := status, runAfter := now + Backoff(attempts) * SECOND, token := None)];
      error := None;
    }

    /** How the worker loop settles a claim: only a transient error goes back to the queue. */
    method Settle(id: JobId, token: Token, outcome: Outcome, now: int)
      modifies this
      ensures !Owns(old(table), id, token) ==> table == old(table)
      ensures Owns(old(table), id, token) && outcome != Err(Transient) ==>
                table == Acknowledged(old(table), id, token) && table[id].status == Done
      ensures Owns(old(table), id, token) && outcome == Err(Transient) ==>
                && table == Rejected(old(table), id, token, now, old(table)[id].attempts)
                && table[id].status == if old(table)[id].attempts < old(table)[id].maxAttempts then Waiting else Dead
    {
      if Retryable(outcome) {
        var _ := Nack(id, token, now);
      } else {
        var _ := Ack(id, token);
      }
    }
  }

  // ---------------------------------------------------------------- runs

  /** What a statement did to a job, in commit order. */
  datatype Event =
    | Granted(id: JobId, token: Token, at: int, until: int)
    | Prolonged(id: JobId, token: Token, until: int)
    | Acked(id: JobId, token: Token)
    | Requeued(id: JobId, token: Token, at: int, attempts: nat)
    | Buried(id: JobId, token: Token)
  {
    predicate Leases() { Granted? || Prolonged? }
    predicate Settles() { !Leases() }
  }

  /** A worker between the two statements of Nack. */
  datatype NackRead = NackRead(id: JobId, token: Token, now: int, attempts: nat)

  /** `created` maps every job ever inserted to its attempt limit; `issued` holds every claim token. */
  datatype State = State(
    table: Table, nacks: map<Lane, NackRead>, log: seq<Event>,
    created: map<JobId, nat>, issued: set<Token>)

  datatype Step =
    | Enqueue(newId: JobId, kind: string, dedupe: Option<string>, max: int, now: int)
    | Dequeue(id: JobId, kinds: set<string>, token: Token, now: int, visibility: int)
    | Heartbeat(id: JobId, token: Token, now: int, visibility: int)
    | Ack(id: JobId, token: Token)
    | NackFirst(lane: Lane, id: JobId, token: Token, now: int)
    | NackSecond(lane: Lane)
    | Delete(id: JobId)

  const INIT: State := State(map[], map[], [], map[], {})

  /** Identifiers and tokens are random UUIDs, so a new one has never been used. */
  predicate Enabled(s: State, step: Step) {
    match step
    case Enqueue(newId, _, _, _, _) => newId !in s.created
    case Dequeue(id, kinds, token, now, _) =>
      token !in s.issued && id in s.table && Ready(s.table[id], kinds, now)
    case _ => true
  }

  ghost function Apply(s: State, step: Step): State
    requires Enabled(s, step)
  {
    match step
    case Enqueue(id, kind, dedupe, max, now) =>
      if Duplicate(s.table, dedupe) then s
      else s.(table := s.table[id := NewJob(kind, dedupe, max, now)], created := s.created[id := EffectiveMax(max)])
    case Dequeue(id, _, token, now, visibility) =>
      s.(table := s.table[id := Claimed(s.table[id], token, now + visibility)],
         issued := s.issued + {token}, log := s.log + [Granted(id, token, now, now + visibility)])
    case Heartbeat(id, token, now, visibility) =>
      if Owns(s.table, id, token)
      then s.(table := Extended(s.table, id, token, now + visibility),
              log := s.log + [Prolonged(id, token, now + visibility)])
      else s
    case Ack(id, token) =>
      if Owns(s.table, id, token)
      then s.(table := Acknowledged(s.table, id, token), log := s.log + [Acked(id, token)])
      else s
    case NackFirst(lane, id, token, now) =>
      if Owns(s.table, id, token)
      then s.(nacks := s.nacks[lane := NackRead(id, token, now, s.table[id].attempts)])
      else s
    case NackSecond(lane) =>
      if lane in s.nacks then
        var n := s.nacks[lane];
        if Owns(s.table, n.id, n.token) then
          s.(table := Rejected(s.table, n.id, n.token, n.now, n.attempts), nacks := s.nacks - {lane},
             log := s.log + [if s.table[n.id].attempts >= s.table[n.id].maxAttempts then Buried(n.id, n.token)
                             else Requeued(n.id, n.token, n.now, s.table[n.id].attempts)])
        else s.(nacks := s.nacks - {lane})
      else s
    case Delete(id) => s.(table := s.table - {id})
  }

  ghost predicate ValidRun(s: State, steps: seq<Step>)
    decreases steps
  {
    steps == [] || (Enabled(s, steps[0]) && ValidRun(Apply(s, steps[0]), steps[1..]))
  }

  ghost function Run(s: State, steps: seq<Step>): State
    requires ValidRun(s, steps)
    decreases steps
  {
    if steps == [] then s else Run(Apply(s, steps[0]), steps[1..])
  }

  function Grants(log: seq<Event>, id: JobId): nat {
    if log == [] then 0
    else Grants(log[..|log| - 1], id) + if log[|log| - 1].Granted? && log[|log| - 1].id == id then 1 else 0
  }

  function Requeues(log: seq<Event>, id: JobId): nat {
    if log == [] then 0
    else Requeues(log[..|log| - 1], id) + if log[|log| - 1].Requeued? && log[|log| - 1].id == id then 1 else 0
  }

  /** The last event of a job. */
  function Last(log: seq<Event>, id: JobId): (e: Option<Event>)
    ensures e.Some? ==> e.value.id == id
  {
    if log == [] then None
    else if log[|log| - 1].id == id then Some(log[|log| - 1])
    else Last(log[..|log| - 1], id)
  }

  lemma CountAppend(log: seq<Event>, e: Event, id: JobId)
    ensures Grants(log + [e], id) == Grants(log, id) + if e.Granted? && e.id == id then 1 else 0
    ensures Requeues(log + [e], id) == Requeues(log, id) + if e.Requeued? && e.id == id then 1 else 0
    ensures Last(log + [e], id) == if e.id == id then Some(e) else Last(log, id)
  {
    assert (log + [e])[..|log + [e]| - 1] == log;
  }

  // ---------------------------------------------------------------- what a run keeps

  predicate RowOk(s: State, id: JobId)
    requires id in s.table
  {
    var j := s.table[id];
    && (j.status == Running <==> j.token.Some?)
    && id in s.created && j.maxAttempts == s.created[id]
    && j.attempts == Grants(s.log, id)
    && Requeues(s.log, id) <= j.attempts
    && (j.status == Running ==> Requeues(s.log, id) < j.attempts)
    && (j.status == Waiting ==> j.attempts < j.maxAttempts)
    && (j.token.Some? ==> j.token.value in s.issued)
    && Fits(j, Last(s.log, id))
  }

  /** A row is as the last event of its job left it. */
  predicate Fits(j: Job, last: Option<Event>) {
    match last
    case None => j.status == Waiting
    case Some(Granted(_, token, _, until)) => j.status == Running && j.token == Some(token) && j.visibleAt == until
    case Some(Prolonged(_, token, until)) => j.status == Running && j.token == Some(token) && j.visibleAt == until
    case Some(Acked(_, _)) => j.status == Done
    case Some(Requeued(_, _, at, attempts)) => j.status == Waiting && j.runAfter == at + Backoff(attempts) * SECOND
    case Some(Buried(_, _)) => j.status == Dead
  }

  ghost predicate RowsOk(s: State) {
    && (forall id :: id in s.table ==> RowOk(s, id))
    && (forall id, other :: id in s.table && other in s.table && s.table[id].token.Some?
                            && s.table[id].token == s.table[other].token
                            ==> id == other)
  }

  ghost predicate HistoryOk(s: State) {
    && (forall id :: id !in s.created ==> Grants(s.log, id) == 0 && Requeues(s.log, id) == 0 && Last(s.log, id).None?)
    && (forall id :: id in s.created ==> s.created[id] >= 1 && Requeues(s.log, id) < s.created[id])
  }

  ghost predicate TokensOk(s: State) {
    && (forall i :: 0 <= i < |s.log| ==> s.log[i].token in s.issued)
    && (forall i :: 0 <= i < |s.log| && s.log[i].Settles() ==>
          forall id :: id in s.table ==> s.table[id].token != Some(s.log[i].token))
  }

  /** No claim token settles twice. */
  ghost predicate SettledOnce(log: seq<Event>) {
    forall i, j :: 0 <= i < j < |log| && log[i].Settles() && log[j].Settles() ==> log[i].token != log[j].token
  }

  ghost predicate LanesOk(s: State) {
    forall l :: l in s.nacks ==>
      var n := s.nacks[l];
      n.token in s.issued && (Owns(s.table, n.id, n.token) ==> s.table[n.id].attempts == n.attempts)
  }

  /** `f` is the next event of the job of `e`. Nobody claims a job within a lease or within a backoff, only the holder
      of the last claim prolongs or settles it, and nothing follows an acknowledgement or a burial. */
  predicate Follows(e: Event, f: Event) {
    if f.Granted? then
      match e
      case Granted(_, _, _, until) => until <= f.at
      case Prolonged(_, _, until) => until <= f.at
      case Requeued(_, _, at, attempts) => at + Backoff(attempts) * SECOND <= f.at
      case _ => false
    else e.Leases() && e.token == f.token
  }

  ghost predicate Legal(log: seq<Event>) {
    forall j :: 0 <= j < |log| ==>
      match Last(log[..j], log[j].id)
      case None => log[j].Granted?
      case Some(e) => Follows(e, log[j])
  }

  /** The events at `i` and `j` are of one job, with none of it between. */
  predicate Next(log: seq<Event>, i: int, j: int) {
    0 <= i < j < |log| && log[i].id == log[j].id && forall k :: i < k < j ==> log[k].id != log[j].id
  }

  lemma {:induction false} NextIsLast(log: seq<Event>, i: nat, j: nat, id: JobId)
    requires i < j <= |log| && log[i].id == id && forall k :: i < k < j ==> log[k].id != id
    ensures Last(log[..j], id) == Some(log[i])
  {
    if i < j - 1 {
      assert log[..j][..j - 1] == log[..j - 1];
      NextIsLast(log, i, j - 1, id);
    }
  }

  ghost predicate Inv(s: State) {
    && RowsOk(s) && HistoryOk(s) && TokensOk(s) && SettledOnce(s.log)
    && LanesOk(s) && Legal(s.log)
  }

  lemma CountsAfter(log: seq<Event>, e: Event)
    ensures forall id :: Grants(log + [e], id) == Grants(log, id) + if e.Granted? && e.id == id then 1 else 0
    ensures forall id :: Requeues(log + [e], id) == Requeues(log, id) + if e.Requeued? && e.id == id then 1 else 0
    ensures forall id :: Last(log + [e], id) == if e.id == id then Some(e) else Last(log, id)
  {
    forall id {
      CountAppend(log, e, id);
    }
  }

  lemma EnqueueKeeps(s: State, step: Step)
    requires Inv(s) && Enabled(s, step) && step.Enqueue?
    ensures Inv(Apply(s, step))
  {
    hide Legal, SettledOnce, Grants, Requeues, Last;
  }

  lemma LegalAppend(log: seq<Event>, e: Event)
    requires Legal(log)
    requires match Last(log, e.id) case None => e.Granted? case Some(d) => Follows(d, e)
    ensures Legal(log + [e])
  {
    hide Last, Follows;
    var log' := log + [e];
    forall j | 0 <= j < |log'|
      ensures match Last(log'[..j], log'[j].id) case None => log'[j].Granted? case Some(d) => Follows(d, log'[j])
    {
      assert log'[..j] == if j < |log| then log[..j] else log;
    }
  }

  lemma DequeueKeeps(s: State, step: Step)
    requires Inv(s) && Enabled(s, step) && step.Dequeue?
    ensures Inv(Apply(s, step))
  {
    hide Grants, Requeues, Last, Legal;
    var s' := Apply(s, step);
    var e := Granted(step.id, step.token, step.now, step.now + step.visibility);
    CountsAfter(s.log, e);
    assert RowOk(s, step.id);
    assert RowsOk(s') && HistoryOk(s');
    assert TokensOk(s') && SettledOnce(s'.log);
    assert LanesOk(s');
    LegalAppend(s.log, e);
  }

  /** The holder of a claim gives it up with event `e`. */
  ghost predicate Releases(s: State, s': State, id: JobId, token: Token, e: Event) {
    && Owns(s.table, id, token) && e.id == id && e.token == token && e.Settles()
    && s'.log == s.log + [e] && s'.created == s.created && s'.issued == s.issued
    && s'.nacks.Keys <= s.nacks.Keys && (forall l :: l in s'.nacks ==> s'.nacks[l] == s.nacks[l])
    && id in s'.table && s'.table == s.table[id := s'.table[id]]
    && s'.table[id].token.None? && Fits(s'.table[id], Some(e))
    && s'.table[id].attempts == s.table[id].attempts && s'.table[id].maxAttempts == s.table[id].maxAttempts
    && (e.Requeued? ==> s.table[id].attempts < s.table[id].maxAttempts)
  }

  lemma ReleaseRows(s: State, s': State, id: JobId, token: Token, e: Event)
    requires RowsOk(s) && HistoryOk(s) && Releases(s, s', id, token, e)
    ensures RowsOk(s') && HistoryOk(s')
  {
    hide Grants, Requeues, Last;
    CountsAfter(s.log, e);
    assert RowOk(s, id);
  }

  lemma ReleaseTokens(s: State, s': State, id: JobId, token: Token, e: Event)
    requires RowsOk(s) && TokensOk(s) && SettledOnce(s.log) && LanesOk(s) && Releases(s, s', id, token, e)
    ensures TokensOk(s') && SettledOnce(s'.log) && LanesOk(s')
  {
    hide Grants, Requeues, Last, Fits;
    assert RowOk(s, id);
  }

  lemma ReleaseKeeps(s: State, s': State, id: JobId, token: Token, e: Event)
    requires Inv(s) && Releases(s, s', id, token, e)
    ensures Inv(s')
  {
    hide Grants, Requeues, Last, Legal, HistoryOk, TokensOk, SettledOnce, LanesOk;
    ReleaseRows(s, s', id, token, e);
    ReleaseTokens(s, s', id, token, e);
    assert RowOk(s, id);
    LegalAppend(s.log, e);
  }

  lemma HeartbeatKeeps(s: State, step: Step)
    requires Inv(s) && Enabled(s, step) && step.Heartbeat?
    ensures Inv(Apply(s, step))
  {
    hide Grants, Requeues, Last, Legal;
    var s' := Apply(s, step);
    if Owns(s.table, step.id, step.token) {
      var e := Prolonged(step.id, step.token, step.now + step.visibility);
      CountsAfter(s.log, e);
      assert RowOk(s, step.id);
      assert RowsOk(s');
      assert HistoryOk(s');
      assert TokensOk(s') && SettledOnce(s'.log);
      assert LanesOk(s');
      LegalAppend(s.log, e);
    }
  }

  lemma NackFirstKeeps(s: State, step: Step)
    requires Inv(s) && Enabled(s, step) && step.NackFirst?
    ensures Inv(Apply(s, step))
  {
    var s' := Apply(s, step);
    assert forall id :: id in s.table ==> RowOk(s, id) && RowOk(s', id);
    assert LanesOk(s');
  }

  lemma NackSecondKeeps(s: State, step: Step)
    requires Inv(s) && Enabled(s, step) && step.NackSecond?
    ensures Inv(Apply(s, step))
  {
    var s' := Apply(s, step);
    if step.lane in s.nacks {
      var n := s.nacks[step.lane];
      if Owns(s.table, n.id, n.token) {
        var j := s.table[n.id];
        var e := if j.attempts >= j.maxAttempts then Buried(n.id, n.token)
                 else Requeued(n.id, n.token, n.now, j.attempts);
        ReleaseKeeps(s, s', n.id, n.token, e);
      } else {
        assert forall id :: id in s.table ==> RowOk(s, id) && RowOk(s', id);
        assert LanesOk(s');
      }
    }
  }

  lemma DeleteKeeps(s: State, step: Step)
    requires Inv(s) && Enabled(s, step) && step.Delete?
    ensures Inv(Apply(s, step))
  {
    var s' := Apply(s, step);
    assert forall id :: id in s'.table ==> RowOk(s, id) && RowOk(s', id);
  }

  lemma AckKeeps(s: State, step: Step)
    requires Inv(s) && Enabled(s, step) && step.Ack?
    ensures Inv(Apply(s, step))
  {
    if Owns(s.table, step.id, step.token) {
      ReleaseKeeps(s, Apply(s, step), step.id, step.token, Acked(step.id, step.token));
    }
  }

  lemma StepKeeps(s: State, step: Step)
    requires Inv(s) && Enabled(s, step)
    ensures Inv(Apply(s, step))
  {
    match step
    case Enqueue(_, _, _, _, _) => EnqueueKeeps(s, step);
    case Dequeue(_, _, _, _, _) => DequeueKeeps(s, step);
    case Heartbeat(_, _, _, _) => HeartbeatKeeps(s, step);
    case Ack(_, _) => AckKeeps(s, step);
    case NackFirst(_, _, _, _) => NackFirstKeeps(s, step);
    case NackSecond(_) => NackSecondKeeps(s, step);
    case Delete(_) => DeleteKeeps(s, step);
  }

  lemma {:induction false} RunKeeps(s: State, steps: seq<Step>)
    requires Inv(s) && ValidRun(s, steps)
    ensures Inv(Run(s, steps))
    decreases steps
  {
    if steps != [] {
      StepKeeps(s, steps[0]);
      RunKeeps(Apply(s, steps[0]), steps[1..]);
    }
  }

  // ---------------------------------------------------------------- main results

  /** Fencing, over every interleaving of any number of workers. */
  lemma Fencing(steps: seq<Step>)
    requires ValidRun(INIT, steps)
    ensures var s := Run(INIT, steps);
            && (forall id :: id in s.table ==>
                  && (s.table[id].status == Running <==> s.table[id].token.Some?)
                  && s.table[id].attempts == Grants(s.log, id))
            && (forall id :: id in s.created ==> Requeues(s.log, id) < s.created[id])
            && SettledOnce(s.log)
  {
    RunKeeps(INIT, steps);
  }

  /** Over every run, what happens to one job follows in order: a claim within the lease of another, as granted or last
      prolonged, or within a backoff, never succeeds, and nobody but the last claimer prolongs or settles. */
  lemma LeasesHold(steps: seq<Step>)
    requires ValidRun(INIT, steps)
    ensures var log := Run(INIT, steps).log;
            && (forall i, j :: Next(log, i, j) ==> Follows(log[i], log[j]))
            && (forall j :: 0 <= j < |log| && !log[j].Granted? ==> exists i :: Next(log, i, j))
  {
    RunKeeps(INIT, steps);
    var log := Run(INIT, steps).log;
    forall i, j | Next(log, i, j) ensures Follows(log[i], log[j]) {
      NextIsLast(log, i, j, log[j].id);
    }
    forall j | 0 <= j < |log| && !log[j].Granted? ensures exists i :: Next(log, i, j) {
      var i := LastIsNext(log, j, log[j].id);
      assert Next(log, i, j);
    }
  }

  lemma {:induction false} LastIsNext(log: seq<Event>, j: nat, id: JobId) returns (i: nat)
    requires j <= |log| && Last(log[..j], id).Some?
    ensures i < j && log[i].id == id && forall k :: i < k < j ==> log[k].id != id
  {
    if log[j - 1].id == id {
      i := j - 1;
    } else {
      assert log[..j][..j - 1] == log[..j - 1];
      i := LastIsNext(log, j - 1, id);
    }
  }

  /** Done and dead are absorbing: no statement changes such a row, except deleting it. */
  lemma TerminalAbsorbs(s: State, step: Step, id: JobId)
    requires Inv(s) && Enabled(s, step)
    requires id in s.table && s.table[id].status in {Done, Dead}
    ensures var s' := Apply(s, step); id in s'.table ==> s'.table[id] == s.table[id]
  {
    assert RowOk(s, id);
  }

  lemma {:induction false} TerminalStays(s: State, steps: seq<Step>, id: JobId)
    requires Inv(s) && ValidRun(s, steps)
    requires id in s.table && s.table[id].status in {Done, Dead}
    ensures var s' := Run(s, steps); id in s'.table ==> s'.table[id] == s.table[id]
    decreases steps
  {
    if steps != [] {
      TerminalAbsorbs(s, steps[0], id);
      StepKeeps(s, steps[0]);
      var s1 := Apply(s, steps[0]);
      if id in s1.table {
        TerminalStays(s1, steps[1..], id);
      } else {
        GoneForever(s1, steps[1..], id);
      }
    }
  }

  /** Once a job is done or dead in a run, its row never changes again, whatever follows. */
  lemma TerminalForever(before: seq<Step>, after: seq<Step>, id: JobId)
    requires ValidRun(INIT, before) && ValidRun(Run(INIT, before), after)
    requires var s := Run(INIT, before); id in s.table && s.table[id].status in {Done, Dead}
    ensures var s, s' := Run(INIT, before), Run(Run(INIT, before), after);
            id in s'.table ==> s'.table[id] == s.table[id]
  {
    RunKeeps(INIT, before);
    TerminalStays(Run(INIT, before), after, id);
  }

  /** A deleted job never comes back: its identifier is not reused. */
  lemma {:induction false} GoneForever(s: State, steps: seq<Step>, id: JobId)
    requires ValidRun(s, steps) && id in s.created && id !in s.table
    ensures id !in Run(s, steps).table
    decreases steps
  {
    if steps != [] {
      GoneForever(Apply(s, steps[0]), steps[1..], id);
    }
  }

  /** In every run a claim ends above the limit exactly when it reclaims an expired lease of a job that had used its
      attempts up; a waiting job always has attempts left. */
  lemma AttemptsExceedLimit(steps: seq<Step>, last: Step)
    requires ValidRun(INIT, steps) && Enabled(Run(INIT, steps), last) && last.Dequeue?
    ensures var s := Run(INIT, steps);
            var j := s.table[last.id];
            && (Apply(s, last).table[last.id].attempts > j.maxAttempts
                <==> j.status == Running && j.attempts >= j.maxAttempts)
            && (j.status == Waiting ==> j.attempts < j.maxAttempts)
  {
    RunKeeps(INIT, steps);
    assert RowOk(Run(INIT, steps), last.id);
  }

  /** Any number of workers can crash in a row on one job with a limit of one. */
  lemma AttemptsUnbounded(crashes: nat) returns (steps: seq<Step>)
    ensures ValidRun(INIT, steps)
    ensures 0 in Run(INIT, steps).table && Run(INIT, steps).table[0].maxAttempts == 1
    ensures Run(INIT, steps).table[0].attempts == crashes + 1
  {
    var first := Enqueue(0, "k", None, 1, 0);
    var tail := Reclaims(Apply(INIT, first), 0, crashes + 1);
    steps := [first] + tail;
    assert steps[1..] == tail;
  }

  /** `n` claims in a row by workers that never settle; `next` is a token not yet used. */
  lemma {:induction false} Reclaims(s: State, next: Token, n: nat) returns (steps: seq<Step>)
    requires 0 in s.table && Ready(s.table[0], {"k"}, 0) && s.table[0].maxAttempts == 1
    requires forall t :: t in s.issued ==> t < next
    ensures ValidRun(s, steps)
    ensures 0 in Run(s, steps).table && Run(s, steps).table[0].maxAttempts == 1
    ensures Run(s, steps).table[0].attempts == s.table[0].attempts + n
    decreases n
  {
    if n == 0 {
      steps := [];
    } else {
      var step := Dequeue(0, {"k"}, next, 0, 0);
      var tail := Reclaims(Apply(s, step), next + 1, n - 1);
      steps := [step] + tail;
      assert steps[1..] == tail;
    }
  }
}
