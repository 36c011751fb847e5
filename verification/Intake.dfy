/**
Any number of worker lanes take images through the duplicate check, the storage record and the page
quota. The duplicate check and the storage record of one lane run under the user lock; deletions and
sweeps may come at any time, and a crash releases the lock.
*/
module Intake {
  import opened Domain

  type User = nat
  type ReceiptId = nat
  type Lane = nat
  type Period = nat
  type Hash = nat  // 0 is the empty hash

  datatype Doc = Doc(user: User, status: ReceiptStatus, stored: bool, hash: Hash, createdAt: nat)

  /** The right to one extraction call: the counter value the lane was told, in its month. */
  datatype Ticket = Ticket(period: Period, no: nat)

  datatype Pc =
    | Fetched(r: ReceiptId, user: User, hash: Hash)
    | Checked(r: ReceiptId, user: User, hash: Hash)
    | Kept(r: ReceiptId, user: User)
    | Granted(r: ReceiptId, user: User, ticket: Ticket)
  {
    predicate HoldsLock() { Checked? || Kept? }
  }

  datatype State = State(
    docs: map<ReceiptId, Doc>, docsEver: set<ReceiptId>, lanes: map<Lane, Pc>,
    pages: map<Period, nat>, limit: nat, calls: multiset<Ticket>)

  datatype Step =
    | NewReceipt(r: ReceiptId, user: User, createdAt: nat)
    | Fetch(lane: Lane, r: ReceiptId, hash: Hash)
    | Check(lane: Lane, found: Option<ReceiptId>)
    | Keep(lane: Lane)
    | Charge(lane: Lane, period: Period)
    | Extract(lane: Lane)
    | Move(r: ReceiptId, from: ReceiptStatus, to: ReceiptStatus)
    | Purge(user: User)
    | Crash(lane: Lane)

  function Init(limit: nat): State {
    State(map[], {}, map[], map[], limit, multiset{})
  }

  ghost predicate LockFree(s: State, user: User) {
    forall l :: l in s.lanes && s.lanes[l].HoldsLock() ==> s.lanes[l].user != user
  }

  /** A lane resuming a stored receipt uses the stored hash. */
  predicate FetchOk(s: State, r: ReceiptId, hash: Hash) {
    r in s.docs && (s.docs[r].stored ==> hash == s.docs[r].hash)
  }

  predicate Carries(d: Doc, user: User, hash: Hash) {
    d.user == user && d.hash == hash && d.status != Deleted
  }

  /** FindReceiptByHash: some receipt of the user that carries the hash, if there is one. The code takes the newest. */
  ghost predicate Answers(s: State, user: User, hash: Hash, found: Option<ReceiptId>) {
    match found
    case None => hash == 0 || forall i :: i in s.docs ==> !Carries(s.docs[i], user, hash)
    case Some(i) => hash != 0 && i in s.docs && Carries(s.docs[i], user, hash)
  }

  /** Everything but the lock. */
  ghost predicate Ready(s: State, step: Step) {
    match step
    case NewReceipt(r, _, _) => r !in s.docsEver
    case Fetch(lane, r, hash) => lane !in s.lanes && FetchOk(s, r, hash)
    case Check(lane, found) =>
      && lane in s.lanes && s.lanes[lane].Fetched?
      && Answers(s, s.lanes[lane].user, s.lanes[lane].hash, found)
    case Keep(lane) => lane in s.lanes && s.lanes[lane].Checked?
    case Charge(lane, _) => lane in s.lanes && s.lanes[lane].Kept?
    case Extract(lane) => lane in s.lanes && s.lanes[lane].Granted?
    case _ => true
  }

  ghost predicate Enabled(s: State, step: Step) {
    Ready(s, step) && (step.Check? ==> LockFree(s, s.lanes[step.lane].user))
  }

  /** Another receipt carries the hash. */
  ghost predicate Duplicate(s: State, r: ReceiptId, user: User, hash: Hash) {
    hash != 0 && exists i :: i in s.docs && i != r && Carries(s.docs[i], user, hash)
  }

  function Count(m: map<Period, nat>, p: Period): nat {
    if p in m then m[p] else 0
  }

  ghost function Apply(s: State, step: Step): State
    requires Ready(s, step)
  {
    match step
    case NewReceipt(r, user, createdAt) =>
      s.(docs := s.docs[r := Doc(user, Received, false, 0, createdAt)], docsEver := s.docsEver + {r})
    case Fetch(lane, r, hash) => s.(lanes := s.lanes[lane := Fetched(r, s.docs[r].user, hash)])
    case Check(lane, found) =>
      var pc := s.lanes[lane];
      if pc.r !in s.docs || ReceiptTerminal(s.docs[pc.r].status) then s.(lanes := s.lanes - {lane})
      else if found.Some? && found.value != pc.r then
        s.(lanes := s.lanes - {lane},
           docs := if ReceiptCanMove(s.docs[pc.r].status, FailedPermanent)
                   then s.docs[pc.r := s.docs[pc.r].(status := FailedPermanent)] else s.docs)
      else s.(lanes := s.lanes[lane := Checked(pc.r, pc.user, pc.hash)])
    case Keep(lane) =>
      var pc := s.lanes[lane];
      s.(lanes := s.lanes[lane := Kept(pc.r, pc.user)],
         docs := if pc.r in s.docs && !s.docs[pc.r].stored
                 then s.docs[pc.r := s.docs[pc.r].(stored := true, hash := pc.hash)] else s.docs)
    case Charge(lane, period) =>
      var pc := s.lanes[lane];
      var no := Count(s.pages, period) + 1;
      s.(pages := s.pages[period := no],
         lanes := if s.limit > 0 && no > s.limit then s.lanes - {lane}
                  else s.lanes[lane := Granted(pc.r, pc.user, Ticket(period, no))])
    case Extract(lane) => s.(calls := s.calls + multiset{s.lanes[lane].ticket}, lanes := s.lanes - {lane})
    case Move(r, from, to) =>
      if ReceiptCanMove(from, to) && r in s.docs && s.docs[r].status == from
      then s.(docs := s.docs[r := s.docs[r].(status := to)]) else s
    case Purge(user) => s.(docs := map r | r in s.docs && s.docs[r].user != user :: s.docs[r])
    case Crash(lane) => s.(lanes := s.lanes - {lane})
  }

  ghost predicate ValidRun(s: State, steps: seq<Step>)
    decreases steps
  {
    steps == [] || (Enabled(s, steps[0]) && ValidRun(Apply(s, steps[0]), steps[1..]))
  }

  ghost function Run(s: State, steps: seq<Step>): State
    requires ValidRun(s, steps)
    decreases steps
  {
    if steps == [] then s else Run(Apply(s, steps[0]), steps[1..])
  }

  // ---------------------------------------------------------------- one receipt per image

  /** At most one receipt of a user that is not deleted carries a given non-empty hash. */
  ghost predicate HashUnique(s: State) {
    forall i, j :: i in s.docs && j in s.docs && s.docs[i].hash != 0 && s.docs[i].status != Deleted
                   && Carries(s.docs[j], s.docs[i].user, s.docs[i].hash)
                   ==> i == j
  }

  ghost predicate DocsOk(s: State) {
    && (forall r :: r in s.docs ==> r in s.docsEver && (s.docs[r].stored || s.docs[r].hash == 0))
    && (forall l :: l in s.lanes ==> s.lanes[l].r in s.docsEver)
    && (forall l :: l in s.lanes && s.lanes[l].r in s.docs ==> s.docs[s.lanes[l].r].user == s.lanes[l].user)
  }

  /** The answer of the duplicate check stays true until the lane has stored the hash. */
  ghost predicate ChecksHold(s: State) {
    && (forall l, m :: l in s.lanes && m in s.lanes && s.lanes[l].HoldsLock() && s.lanes[m].HoldsLock()
                       && s.lanes[l].user == s.lanes[m].user
                       ==> l == m)
    && (forall l :: l in s.lanes && s.lanes[l].Checked? ==>
          !Duplicate(s, s.lanes[l].r, s.lanes[l].user, s.lanes[l].hash))
  }

  ghost predicate HashInv(s: State) {
    HashUnique(s) && DocsOk(s) && ChecksHold(s)
  }

  lemma KeepHash(s: State, step: Step)
    requires HashInv(s) && Enabled(s, step) && step.Keep?
    ensures HashInv(Apply(s, step))
  {
    var s' := Apply(s, step);
    var pc := s.lanes[step.lane];
    if pc.r in s.docs && !s.docs[pc.r].stored {
      assert DocsOk(s');
      assert HashUnique(s') by {
        assert pc.hash != 0 ==> forall i :: i in s.docs && i != pc.r ==> !Carries(s.docs[i], pc.user, pc.hash);
      }
      forall l | l in s'.lanes && s'.lanes[l].Checked?
        ensures !Duplicate(s', s'.lanes[l].r, s'.lanes[l].user, s'.lanes[l].hash)
      {
        assert s.lanes[l] == s'.lanes[l] && s.lanes[l].user != pc.user;
      }
    }
  }

  lemma CheckHash(s: State, step: Step)
    requires HashInv(s) && Enabled(s, step) && step.Check?
    ensures HashInv(Apply(s, step))
  {
    var s' := Apply(s, step);
    assert DocsOk(s') && HashUnique(s');
    forall l | l in s'.lanes && s'.lanes[l].Checked?
      ensures !Duplicate(s', s'.lanes[l].r, s'.lanes[l].user, s'.lanes[l].hash)
    {
      if l != step.lane {
        assert s.lanes[l] == s'.lanes[l];
        assert !Duplicate(s, s.lanes[l].r, s.lanes[l].user, s.lanes[l].hash);
      }
    }
  }

  lemma OtherHash(s: State, step: Step)
    requires HashInv(s) && Enabled(s, step) && (step.NewReceipt? || step.Move? || step.Purge?)
    ensures HashInv(Apply(s, step))
  {
    var s' := Apply(s, step);
    assert DocsOk(s') && HashUnique(s');
    forall l | l in s'.lanes && s'.lanes[l].Checked?
      ensures !Duplicate(s', s'.lanes[l].r, s'.lanes[l].user, s'.lanes[l].hash)
    {
      assert !Duplicate(s, s.lanes[l].r, s.lanes[l].user, s.lanes[l].hash);
    }
  }

  lemma LaneHash(s: State, step: Step)
    requires HashInv(s) && Enabled(s, step) && (step.Fetch? || step.Charge? || step.Extract? || step.Crash?)
    ensures HashInv(Apply(s, step))
  {
    var s' := Apply(s, step);
    forall l | l in s'.lanes && s'.lanes[l].Checked?
      ensures !Duplicate(s', s'.lanes[l].r, s'.lanes[l].user, s'.lanes[l].hash)
    {
      assert !Duplicate(s, s.lanes[l].r, s.lanes[l].user, s.lanes[l].hash);
    }
  }

  lemma StepHash(s: State, step: Step)
    requires HashInv(s) && Enabled(s, step)
    ensures HashInv(Apply(s, step))
  {
    match step
    case Keep(_) => KeepHash(s, step);
    case Check(_, _) => CheckHash(s, step);
    case NewReceipt(_, _, _) => OtherHash(s, step);
    case Move(_, _, _) => OtherHash(s, step);
    case Purge(_) => OtherHash(s, step);
    case _ => LaneHash(s, step);
  }

  lemma {:induction false} RunHash(s: State, steps: seq<Step>)
    requires HashInv(s) && ValidRun(s, steps)
    ensures HashInv(Run(s, steps))
    decreases steps
  {
    if steps != [] {
      StepHash(s, steps[0]);
      RunHash(Apply(s, steps[0]), steps[1..]);
    }
  }

  /** Over every run, resumes, deletions, sweeps and crashes included, one image is stored once per user. */
  lemma OneReceiptPerImage(limit: nat, steps: seq<Step>)
    requires ValidRun(Init(limit), steps)
    ensures HashUnique(Run(Init(limit), steps))
  {
    RunHash(Init(limit), steps);
  }

  /** A run that ignores the lock. */
  ghost predicate Reaches(s: State, steps: seq<Step>, end: State)
    decreases steps
  {
    if steps == [] then s == end else Ready(s, steps[0]) && Reaches(Apply(s, steps[0]), steps[1..], end)
  }

  lemma Cons(s: State, step: Step, rest: seq<Step>, end: State)
    requires Ready(s, step) && Reaches(Apply(s, step), rest, end)
    ensures Reaches(s, [step] + rest, end)
  {
    assert ([step] + rest)[1..] == rest;
  }

  /** Without the lock two lanes can both pass the check and both store the same image. */
  lemma DuplicateWithoutLock() returns (steps: seq<Step>, end: State)
    ensures Reaches(Init(0), steps, end) && !HashUnique(end)
  {
    var s0 := Init(0);
    var s1 := Apply(s0, NewReceipt(1, 0, 0));
    var s2 := Apply(s1, NewReceipt(2, 0, 0));
    var s3 := Apply(s2, Fetch(1, 1, 7));
    var s4 := Apply(s3, Fetch(2, 2, 7));
    var s5 := Apply(s4, Check(1, None));
    assert !Duplicate(s4, 1, 0, 7);
    var s6 := Apply(s5, Check(2, None));
    assert !Duplicate(s5, 2, 0, 7);
    var s7 := Apply(s6, Keep(1));
    end := Apply(s7, Keep(2));
    assert Carries(end.docs[2], end.docs[1].user, end.docs[1].hash);
    steps := [];
    Cons(s7, Keep(2), steps, end); steps := [Keep(2)] + steps;
    Cons(s6, Keep(1), steps, end); steps := [Keep(1)] + steps;
    Cons(s5, Check(2, None), steps, end); steps := [Check(2, None)] + steps;
    Cons(s4, Check(1, None), steps, end); steps := [Check(1, None)] + steps;
    Cons(s3, Fetch(2, 2, 7), steps, end); steps := [Fetch(2, 2, 7)] + steps;
    Cons(s2, Fetch(1, 1, 7), steps, end); steps := [Fetch(1, 1, 7)] + steps;
    Cons(s1, NewReceipt(2, 0, 0), steps, end); steps := [NewReceipt(2, 0, 0)] + steps;
    Cons(s0, NewReceipt(1, 0, 0), steps, end); steps := [NewReceipt(1, 0, 0)] + steps;
  }

  // ---------------------------------------------------------------- the page quota

  /** Tickets are distinct counter values within the limit; one ticket pays for one call. */
  ghost predicate TicketOk(s: State, t: Ticket) {
    1 <= t.no <= Count(s.pages, t.period) && (s.limit > 0 ==> t.no <= s.limit)
  }

  ghost predicate QuotaInv(s: State) {
    && (forall l :: l in s.lanes && s.lanes[l].Granted? ==>
          TicketOk(s, s.lanes[l].ticket) && s.calls[s.lanes[l].ticket] == 0)
    && (forall l, m :: l in s.lanes && m in s.lanes && s.lanes[l].Granted? && s.lanes[m].Granted?
                       && s.lanes[l].ticket == s.lanes[m].ticket
                       ==> l == m)
    && (forall t :: t in s.calls ==> TicketOk(s, t))
    && (forall t :: s.calls[t] <= 1)
  }

  lemma ChargeQuota(s: State, step: Step)
    requires QuotaInv(s) && Ready(s, step) && step.Charge?
    ensures QuotaInv(Apply(s, step))
  {
    var s' := Apply(s, step);
    var t := Ticket(step.period, Count(s.pages, step.period) + 1);
    assert !TicketOk(s, t);
    assert forall u :: TicketOk(s, u) ==> TicketOk(s', u);
  }

  lemma StepQuota(s: State, step: Step)
    requires QuotaInv(s) && Ready(s, step)
    ensures QuotaInv(Apply(s, step)) && Apply(s, step).limit == s.limit
  {
    match step
    case Charge(_, _) => ChargeQuota(s, step);
    case Extract(_) => ExtractQuota(s, step);
    case _ => QuotaUntouched(s, Apply(s, step));
  }

  lemma ExtractQuota(s: State, step: Step)
    requires QuotaInv(s) && Ready(s, step) && step.Extract?
    ensures QuotaInv(Apply(s, step))
  {
    var s' := Apply(s, step);
    assert forall u :: TicketOk(s, u) <==> TicketOk(s', u);
  }

  lemma QuotaUntouched(s: State, s': State)
    requires QuotaInv(s) && s'.pages == s.pages && s'.limit == s.limit && s'.calls == s.calls
    requires forall l :: l in s'.lanes && s'.lanes[l].Granted? ==> l in s.lanes && s.lanes[l] == s'.lanes[l]
    ensures QuotaInv(s')
  {
    assert forall u :: TicketOk(s, u) <==> TicketOk(s', u);
  }

  lemma {:induction false} RunQuota(s: State, steps: seq<Step>)
    requires QuotaInv(s) && ValidRun(s, steps)
    ensures QuotaInv(Run(s, steps)) && Run(s, steps).limit == s.limit
    decreases steps
  {
    if steps != [] {
      StepQuota(s, steps[0]);
      RunQuota(Apply(s, steps[0]), steps[1..]);
    }
  }

  ghost function CallsIn(s: State, p: Period): set<nat> {
    set t | t in s.calls && t.period == p :: t.no
  }

  /** For any number of lanes, the extraction calls charged to a month are at most the limit. */
  lemma ExtractionsWithinLimit(limit: nat, steps: seq<Step>, p: Period)
    requires limit > 0 && ValidRun(Init(limit), steps)
    ensures forall t :: Run(Init(limit), steps).calls[t] <= 1
    ensures |CallsIn(Run(Init(limit), steps), p)| <= limit
  {
    RunQuota(Init(limit), steps);
    var s := Run(Init(limit), steps);
    Within(CallsIn(s, p), limit);
  }

  lemma {:induction false} Within(a: set<nat>, n: nat)
    requires forall x :: x in a ==> 1 <= x <= n
    ensures |a| <= n
  {
    if n > 0 {
      Within(a - {n}, n - 1);
    } else {
      assert a == {};
    }
  }

  lemma {:induction false} RunAppend(s: State, steps: seq<Step>, step: Step)
    requires ValidRun(s, steps) && Enabled(Run(s, steps), step)
    ensures ValidRun(s, steps + [step]) && Run(s, steps + [step]) == Apply(Run(s, steps), step)
    decreases steps
  {
    hide Ready, Apply;
    if steps == [] {
      assert (steps + [step])[0] == step && (steps + [step])[1..] == [];
    } else {
      assert (steps + [step])[0] == steps[0] && (steps + [step])[1..] == steps[1..] + [step];
      RunAppend(Apply(s, steps[0]), steps[1..], step);
    }
  }

  lemma Extend(s: State, steps: seq<Step>, now: State, step: Step) returns (more: seq<Step>, next: State)
    requires ValidRun(s, steps) && now == Run(s, steps) && Enabled(now, step)
    ensures more == steps + [step] && ValidRun(s, more)
    ensures next == Apply(now, step) == Run(s, more)
  {
    hide Ready, Apply;
    RunAppend(s, steps, step);
    more := steps + [step];
    next := Apply(now, step);
  }

  lemma NoSteps(s: State)
    ensures ValidRun(s, []) && Run(s, []) == s
  {
  }
}
