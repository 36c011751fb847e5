/**
One receipt job from start to end. The handler holds the user lock in three phases and releases it
around the image download and the extraction call. Between any two statements other actors run: while
the lock is held only the retention sweep and work on other receipts, while it is free also the chat
handler and account deletion. No other lane works on the same receipt.
*/
module Processor {
  import opened Domain
  import Intake

  type User = Intake.User
  type ReceiptId = Intake.ReceiptId
  type Hash = Intake.Hash
  type Doc = Intake.Doc

  datatype Result<T> = Got(value: T) | Failed(code: Code)

  /** Something another actor does to the tables. */
  datatype Interference = SetReceipt(r: ReceiptId, doc: Option<Doc>) | SetUser(u: User, status: Option<UserStatus>)

  /** What happens around one statement: interference before it, and whether the store fails (transiently);
      a failed statement has no effect. `replyCode` is the code a failing Reply carries. */
  datatype Moment = Moment(others: seq<Interference>, fault: bool, replyCode: Code)

  /** What others may do to the receipt of this job: nothing while it is in flight, except that account deletion
      removes it when the lock is free; a terminal receipt stays terminal. Only the webhook moves a receipt that
      is still in `received`. */
  predicate MayBecome(before: Option<Doc>, after: Option<Doc>, locked: bool) {
    match before
    case None => after.None?
    case Some(d) =>
      if after.None? then !locked
      else
        || after.value == d
        || (&& after.value.user == d.user
            && (|| (d.status == Received && !locked)
                || (ReceiptTerminal(d.status) && ReceiptTerminal(after.value.status))))
  }

  /** What a phase under the lock preserves. */
  predicate Stable(before: Option<Doc>, after: Option<Doc>) {
    && (before.None? <==> after.None?)
    && (before.Some? ==> after.value.user == before.value.user)
    && (before.Some? && ReceiptTerminal(before.value.status) ==> ReceiptTerminal(after.value.status))
  }

  datatype Load = Loaded(hash: Hash) | LoadFailed(loadCode: Code)

  /** What the extractor and the drafting before the final transaction produced. */
  datatype Extraction = ExtractFailed(extractCode: Code) | DraftFailed(draftCode: Code) | Drafted

  /** What phase one hands over: skip, or the receipt as it was read. */
  datatype Prep = Skip | Go(doc: Doc)

  // ---------------------------------------------------------------- an undisturbed job

  /** What the job sees: the owner's status, its receipt, the other receipts and the page counter. */
  datatype World = World(owner: Option<UserStatus>, row: Option<Doc>, others: map<ReceiptId, Doc>, pages: nat)
  {
    predicate Is(status: ReceiptStatus) {
      row.Some? && row.value.status == status
    }

    /** A receipt between claim and review. */
    predicate InFlight() {
      Is(Downloading) || Is(Stored) || Is(Extracting)
    }

    function With(status: ReceiptStatus): World {
      if row.Some? then this.(row := Some(row.value.(status := status))) else this
    }

    predicate HasTwin(hash: Hash) {
      hash != 0 && row.Some? && exists i :: i in others && Intake.Carries(others[i], row.value.user, hash)
    }
  }

  /** The answer of the hash query: the newest carrier, or none. */
  ghost predicate Newest(docs: map<ReceiptId, Doc>, owner: User, hash: Hash, found: Option<ReceiptId>) {
    match found
    case None => forall i :: i in docs ==> !Intake.Carries(docs[i], owner, hash)
    case Some(i) =>
      && i in docs && Intake.Carries(docs[i], owner, hash)
      && forall j :: j in docs && Intake.Carries(docs[j], owner, hash) ==> docs[j].createdAt <= docs[i].createdAt
  }

  datatype Ending = Ending(world: World, outcome: Outcome)

  /** A failure in flight: transient ones wait for a retry, all others are final and acknowledged. */
  function Broken(w: World, code: Code): Ending {
    if code == Transient then Ending(w.With(FailedTransient), Err(Transient)) else Ending(w.With(FailedPermanent), Nil)
  }

  /** The receipt claimed for processing, from wherever an earlier attempt left it. */
  function Claimed(w: World): World {
    if w.Is(FailedTransient) || w.Is(Queued) then w.With(Downloading) else w
  }

  predicate Workable(w: World, user: User) {
    && w.owner.Some? && w.owner.value != UserDeleted && w.row.Some? && w.row.value.user == user
    && !ReceiptTerminal(w.row.value.status) && w.row.value.status != Received
  }

  /** Stored and under extraction; the hash is recorded on the first pass only. */
  function Kept(w: World, hash: Hash): World {
    if w.row.None? then w
    else if w.row.value.stored then w.With(Extracting)
    else w.(row := Some(w.row.value.(stored := true, hash := hash, status := Extracting)))
  }

  /** The kill switch and the page quota. */
  function Charged(w: World, enabled: bool, limit: nat): World {
    if !enabled then w.With(FailedPermanent)
    else if limit > 0 && w.pages + 1 > limit then w.(pages := w.pages + 1).With(FailedPermanent)
    else w.(pages := w.pages + 1)
  }

  /** The hash query is unambiguous: not both this receipt and another carry the hash. */
  predicate Clear(w: World, hash: Hash) {
    w.HasTwin(hash) ==> w.row.Some? && !Intake.Carries(w.row.value, w.row.value.user, hash)
  }

  /** Phase two; the extractor is called iff the receipt ends in extracting. */
  function Armed(w: World, hash: Hash, enabled: bool, limit: nat): World {
    if w.HasTwin(hash) then w.With(FailedPermanent) else Charged(Kept(w, hash), enabled, limit)
  }

  /** Phase three. */
  function Finished(w: World, x: Extraction): Ending {
    match x
    case ExtractFailed(code) => Broken(w, code)
    case DraftFailed(code) => if code == Conflict then Ending(w, Nil) else Broken(w, code)
    case Drafted => Ending(w.With(ReviewRequired), Nil)
  }

  /** The whole job when nobody interferes and no statement fails. */
  function Undisturbed(w: World, user: User, load: Load, x: Extraction, enabled: bool, limit: nat): Ending {
    if Workable(w, user) then
      var w1 := Claimed(w);
      match load
      case LoadFailed(code) => if code == Conflict then Ending(w1, Nil) else Broken(w1, code)
      case Loaded(hash) =>
        var w2 := Armed(w1, hash, enabled, limit);
        if w2.Is(Extracting) then Finished(w2, x) else Ending(w2, Nil)
    else if w.owner.Some? && w.owner.value != UserDeleted && w.row.Some? && w.row.value.user != user
            && !ReceiptTerminal(w.row.value.status) then Ending(w, Err(Transient))
    else Ending(w, Nil)
  }

  /** Nothing is left to do for the job. */
  predicate Done(w: World) {
    w.row.None? || ReceiptTerminal(w.row.value.status) || w.owner.None? || w.owner.value == UserDeleted
  }

  /** The inputs on which an undisturbed job is acknowledged with work left: its receipt was never queued, the download
      fails with the conflict code, or a drafting call does. */
  predicate AckedTooEarly(w: World, user: User, load: Load, x: Extraction, enabled: bool, limit: nat) {
    && !Done(w) && w.row.value.user == user
    && (|| w.Is(Received)
        || load == LoadFailed(Conflict)
        || (load.Loaded? && x == DraftFailed(Conflict) && Armed(Claimed(w), load.hash, enabled, limit).Is(Extracting)))
  }

  /** An undisturbed job ends in nil or a transient error; it is acknowledged with work left exactly on these inputs,
      and sent back with nothing left to do on none. */
  lemma AcknowledgedIffDone(w: World, user: User, load: Load, x: Extraction, enabled: bool, limit: nat)
    ensures var e := Undisturbed(w, user, load, x, enabled, limit);
            && (e.outcome == Nil || e.outcome == Err(Transient))
            && (e.outcome == Nil && !Done(e.world) <==> AckedTooEarly(w, user, load, x, enabled, limit))
            && (Done(e.world) ==> e.outcome == Nil)
            && (!Workable(w, user) ==> e.world == w)
  {
    if Workable(w, user) && load.Loaded? {
      assert Claimed(w).InFlight();
    }
  }

  /** Which causes are retried: a receipt that can be worked on and fails to load, to extract or to be drafted waits for
      a retry if the cause is transient, and otherwise fails for good and its job is acknowledged. */
  lemma FailureByCause(w: World, user: User, load: Load, x: Extraction, enabled: bool, limit: nat, code: Code)
    requires Workable(w, user)
    requires || (load == LoadFailed(code) && code != Conflict)
             || (&& load.Loaded? && Armed(Claimed(w), load.hash, enabled, limit).Is(Extracting)
                 && (x == ExtractFailed(code) || (x == DraftFailed(code) && code != Conflict)))
    ensures var e := Undisturbed(w, user, load, x, enabled, limit);
            && e.world.row.Some?
            && (code == Transient ==> e.outcome == Err(Transient) && e.world.row.value.status == FailedTransient)
            && (code != Transient ==> e.outcome == Nil && e.world.row.value.status == FailedPermanent)
  {
    assert Claimed(w).InFlight();
  }

  /** What phase two leaves: a duplicate, a switched-off extractor and a used-up quota fail the receipt, and the storage
      record and the page charge come first where they should. */
  lemma ArmedOutcome(w: World, hash: Hash, enabled: bool, limit: nat)
    requires w.InFlight()
    ensures var e, d := Armed(w, hash, enabled, limit), w.row.value;
            var twin := hash != 0 && exists i :: i in w.others && w.others[i].user == d.user && w.others[i].hash == hash
                                                 && w.others[i].status != Deleted;
            && e.owner == w.owner && e.others == w.others
            && e.pages == (if twin || !enabled then w.pages else w.pages + 1)
            && e.row == Some(d.(stored := d.stored || !twin, hash := if twin || d.stored then d.hash else hash,
                                status := if !twin && enabled && (limit == 0 || w.pages < limit) then Extracting
                                          else FailedPermanent))
  {
    assert w.HasTwin(hash) <==>
      hash != 0 && exists i :: i in w.others && Intake.Carries(w.others[i], w.row.value.user, hash);
  }

  /** What a job does to a receipt that can be worked on, failures apart: it is claimed, armed and drafted for review. */
  lemma JobOutcome(w: World, user: User, load: Load, x: Extraction, enabled: bool, limit: nat)
    requires Workable(w, user)
    ensures var e, d := Undisturbed(w, user, load, x, enabled, limit).world, w.row.value;
            var claimed := w.(row := Some(d.(status := if d.status in {Queued, FailedTransient} then Downloading
                                                       else d.status)));
            match load
            case LoadFailed(_) => e == claimed.(row := Some(d.(status := e.row.value.status)))
                                  && (load == LoadFailed(Conflict) ==> e == claimed)
            case Loaded(hash) =>
              var armed := Armed(claimed, hash, enabled, limit);
              if !armed.Is(Extracting) || x == DraftFailed(Conflict) then e == armed
              else e == armed.(row := Some(armed.row.value.(status := e.row.value.status)))
                   && (x == Drafted ==> e.Is(ReviewRequired))
  {
    hide Armed;
    assert Claimed(w).InFlight();
    if load.Loaded? { ArmedOutcome(Claimed(w), load.hash, enabled, limit); }
  }

  /** Each of the three happens: the job is acknowledged and its receipt stays in flight. */
  lemma ConflictsAreDropped()
    ensures var w := World(Some(UserActive), Some(Intake.Doc(1, Queued, false, 0, 0)), map[], 0);
            var received := w.With(Received);
            && Undisturbed(received, 1, Loaded(7), Drafted, true, 0) == Ending(received, Nil)
            && Undisturbed(w, 1, LoadFailed(Conflict), Drafted, true, 0) == Ending(w.With(Downloading), Nil)
            && Undisturbed(w, 1, Loaded(7), DraftFailed(Conflict), true, 0).outcome == Nil
            && Undisturbed(w, 1, Loaded(7), DraftFailed(Conflict), true, 0).world.Is(Extracting)
  {
    var w := World(Some(UserActive), Some(Intake.Doc(1, Queued, false, 0, 0)), map[], 0);
    assert !Claimed(w).HasTwin(7);
  }

  /** A retry resumes from whatever status an undisturbed attempt left: if the image can be fetched and read and quota
      is left, the receipt reaches review. */
  lemma RetryReachesReview(w: World, user: User, load: Load, x: Extraction, enabled: bool, limit: nat, hash: Hash,
                           quota: nat)
    requires Workable(w, user) && Undisturbed(w, user, load, x, enabled, limit).outcome == Err(Transient)
    requires var w1 := Undisturbed(w, user, load, x, enabled, limit).world;
             !w1.HasTwin(hash) && (quota == 0 || w1.pages < quota)
    ensures var w1 := Undisturbed(w, user, load, x, enabled, limit).world;
            var e := Undisturbed(w1, user, Loaded(hash), Drafted, true, quota);
            e.outcome == Nil && e.world.Is(ReviewRequired) && e.world.pages == w1.pages + 1
  {
    var w1 := Undisturbed(w, user, load, x, enabled, limit).world;
    assert w1.Is(FailedTransient) && Workable(w1, user);
    var w2 := Claimed(w1);
    assert w2.HasTwin(hash) == w1.HasTwin(hash);
    assert Kept(w2, hash).Is(Extracting);
  }

  // ---------------------------------------------------------------- phase two is a run of the intake machine

  /** The tables of the intake machine, seen from the job of receipt `r`. */
  ghost predicate Sees(s: Intake.State, w: World, r: ReceiptId, period: Intake.Period) {
    && w.row.Some? && r !in w.others && s.docs == w.others[r := w.row.value] && Intake.Count(s.pages, period) == w.pages
  }

  /** `s` is reached from `s0` by `steps`. */
  ghost predicate Reached(s0: Intake.State, steps: seq<Intake.Step>, s: Intake.State) {
    Intake.ValidRun(s0, steps) && s == Intake.Run(s0, steps)
  }

  lemma Then(s0: Intake.State, before: seq<Intake.Step>, s: Intake.State, step: Intake.Step)
    returns (more: seq<Intake.Step>, next: Intake.State)
    requires Reached(s0, before, s) && Intake.Enabled(s, step)
    ensures more == before + [step] && next == Intake.Apply(s, step) && Reached(s0, more, next)
  {
    more, next := Intake.Extend(s0, before, s, step);
  }

  /** The duplicate check. */
  lemma CheckRuns(w: World, r: ReceiptId, hash: Hash, period: Intake.Period, s: Intake.State, lane: Intake.Lane)
    returns (steps: seq<Intake.Step>, s': Intake.State)
    requires Sees(s, w, r, period) && w.InFlight() && Clear(w, hash)
    requires lane in s.lanes && s.lanes[lane] == Intake.Fetched(r, w.row.value.user, hash)
    requires Intake.LockFree(s, w.row.value.user)
    ensures Reached(s, steps, s') && Sees(s', if w.HasTwin(hash) then w.With(FailedPermanent) else w, r, period)
    ensures s'.limit == s.limit
    ensures s'.lanes == if w.HasTwin(hash) then s.lanes - {lane}
                        else s.lanes[lane := Intake.Checked(r, w.row.value.user, hash)]
  {
    hide Reached;
    var found: Option<ReceiptId> := None;
    if w.HasTwin(hash) {
      var i :| i in w.others && Intake.Carries(w.others[i], w.row.value.user, hash);
      found := Some(i);
    } else if hash != 0 && Intake.Carries(w.row.value, w.row.value.user, hash) {
      found := Some(r);
    }
    assert Intake.Answers(s, w.row.value.user, hash, found);
    assert Reached(s, [], s) by { Nowhere(s); }
    steps, s' := Then(s, [], s, Intake.Check(lane, found));
  }

  lemma Nowhere(s: Intake.State)
    ensures Reached(s, [], s)
  {
    Intake.NoSteps(s);
  }

  /** The storage record and the moves to extracting. */
  lemma KeepRuns(w: World, r: ReceiptId, hash: Hash, period: Intake.Period,
                 s0: Intake.State, before: seq<Intake.Step>, s: Intake.State, lane: Intake.Lane)
    returns (steps: seq<Intake.Step>, s': Intake.State)
    requires Reached(s0, before, s) && Sees(s, w, r, period) && w.InFlight()
    requires lane in s.lanes && s.lanes[lane] == Intake.Checked(r, w.row.value.user, hash)
    ensures Reached(s0, steps, s') && Sees(s', Kept(w, hash), r, period) && s'.limit == s.limit
    ensures s'.lanes == s.lanes[lane := Intake.Pc.Kept(r, w.row.value.user)]
  {
    hide Reached;
    steps, s' := Then(s0, before, s, Intake.Keep(lane));
    if w.Is(Downloading) { steps, s' := Then(s0, steps, s', Intake.Move(r, Downloading, Stored)); }
    if !w.Is(Extracting) { steps, s' := Then(s0, steps, s', Intake.Move(r, Stored, Extracting)); }
  }

  /** The kill switch and the page quota. */
  lemma ChargeRuns(w: World, r: ReceiptId, enabled: bool, limit: nat, period: Intake.Period,
                   s0: Intake.State, before: seq<Intake.Step>, s: Intake.State, lane: Intake.Lane)
    returns (steps: seq<Intake.Step>, s': Intake.State)
    requires Reached(s0, before, s) && Sees(s, w, r, period) && w.Is(Extracting) && s.limit == limit
    requires lane in s.lanes && s.lanes[lane] == Intake.Pc.Kept(r, w.row.value.user)
    ensures Reached(s0, steps, s') && Sees(s', Charged(w, enabled, limit), r, period)
    ensures Charged(w, enabled, limit).Is(Extracting) <==> lane in s'.lanes && s'.lanes[lane].Granted?
  {
    hide Reached;
    if !enabled {
      steps, s' := Then(s0, before, s, Intake.Crash(lane));
    } else {
      steps, s' := Then(s0, before, s, Intake.Charge(lane, period));
    }
    if !Charged(w, enabled, limit).Is(Extracting) {
      steps, s' := Then(s0, steps, s', Intake.Move(r, Extracting, FailedPermanent));
    }
  }

  /** What an undisturbed phase two does is a run of the intake machine by one lane, which ends with the right to one
      extraction call exactly if the receipt is extracting. */
  lemma ArmIsIntakeRun(w: World, r: ReceiptId, hash: Hash, enabled: bool, limit: nat, period: Intake.Period,
                       s: Intake.State, lane: Intake.Lane)
    returns (steps: seq<Intake.Step>, s': Intake.State)
    requires Sees(s, w, r, period) && w.InFlight() && Clear(w, hash) && s.limit == limit
    requires lane in s.lanes && s.lanes[lane] == Intake.Fetched(r, w.row.value.user, hash)
    requires Intake.LockFree(s, w.row.value.user)
    ensures Reached(s, steps, s') && Sees(s', Armed(w, hash, enabled, limit), r, period)
    ensures Armed(w, hash, enabled, limit).Is(Extracting) <==> lane in s'.lanes && s'.lanes[lane].Granted?
  {
    hide Reached, Sees, Intake.Apply;
    steps, s' := CheckRuns(w, r, hash, period, s, lane);
    if !w.HasTwin(hash) {
      steps, s' := KeepRuns(w, r, hash, period, s, steps, s', lane);
      steps, s' := ChargeRuns(Kept(w, hash), r, enabled, limit, period, s, steps, s', lane);
    }
  }

  /** The hash query is unambiguous in every reachable state of the intake machine. */
  lemma ReachableIsClear(quota: nat, steps: seq<Intake.Step>, w: World, r: ReceiptId, period: Intake.Period, hash: Hash)
    requires Intake.ValidRun(Intake.Init(quota), steps)
    requires Sees(Intake.Run(Intake.Init(quota), steps), w, r, period)
    ensures Clear(w, hash)
  {
    var s := Intake.Run(Intake.Init(quota), steps);
    Intake.OneReceiptPerImage(quota, steps);
    if w.HasTwin(hash) {
      var i :| i in w.others && Intake.Carries(w.others[i], w.row.value.user, hash);
      assert s.docs[i] == w.others[i] && s.docs[r] == w.row.value;
    }
  }

  class ReceiptJob {
    const user: User
    const receipt: ReceiptId
    var users: map<User, UserStatus>
    var receipts: map<ReceiptId, Doc>
    var ocrPages: nat
    var script: seq<Moment>

    constructor (user: User, receipt: ReceiptId, users: map<User, UserStatus>, receipts: map<ReceiptId, Doc>,
                 ocrPages: nat, script: seq<Moment>)
      ensures this.user == user && this.receipt == receipt && this.users == users && this.receipts == receipts
      ensures this.ocrPages == ocrPages && this.script == script
    {
      this.user, this.receipt, this.users, this.receipts := user, receipt, users, receipts;
      this.ocrPages, this.script := ocrPages, script;
    }

    function Seen(): World
      reads this
    {
      World(Owner(), Row(), receipts - {receipt}, ocrPages)
    }

    /** The row of this job's receipt. */
    function Row(): Option<Doc>
      reads this
    {
      if receipt in receipts then Some(receipts[receipt]) else None
    }

    function Owner(): Option<UserStatus>
      reads this
    {
      if user in users then Some(users[user]) else None
    }

    predicate Terminal()
      reads this
    {
      receipt in receipts && ReceiptTerminal(receipts[receipt].status)
    }

    /** The states in which nothing is left to do for the job. */
    predicate Settled()
      reads this
    {
      receipt !in receipts || Terminal() || user !in users || users[user] == UserDeleted
    }

    // -------------------------------------------------------------- the environment

    /** Lets the other actors run and says whether the coming statement fails. */
    method Tick(locked: bool) returns (m: Moment)
      modifies this
      ensures MayBecome(old(Row()), Row(), locked)
      ensures locked ==> Owner() == old(Owner())
      ensures ocrPages == old(ocrPages)
      ensures old(script) == [] ==> script == [] && !m.fault && users == old(users) && receipts == old(receipts)
    {
      if script == [] { return Moment([], false, Transient); }
      m := script[0];
      script := script[1..];
      for i := 0 to |m.others|
        invariant MayBecome(old(Row()), Row(), locked)
        invariant locked ==> Owner() == old(Owner())
        invariant ocrPages == old(ocrPages)
      {
        Interfere(m.others[i], locked);
      }
    }

    method Interfere(step: Interference, locked: bool)
      modifies this`users, this`receipts
      ensures MayBecome(old(Row()), Row(), locked)
      ensures locked ==> Owner() == old(Owner())
    {
      match step
      case SetUser(u, status) =>
        if u != user || !locked {
          users := if status.Some? then users[u := status.value] else users - {u};
        }
      case SetReceipt(r, doc) =>
        if r != receipt || MayBecome(Row(), doc, locked) {
          receipts := if doc.Some? then receipts[r := doc.value] else receipts - {r};
        }
    }

    // -------------------------------------------------------------- statements

    method GetUser() returns (r: Result<UserStatus>)
      modifies this
      ensures MayBecome(old(Row()), Row(), true) && Owner() == old(Owner())
      ensures r.Got? ==> Owner() == Some(r.value)
      ensures r == Result.Failed(NotFound) ==> Owner().None?
      ensures r.Failed? ==> r.code in {NotFound, Transient}
      ensures old(script) == [] ==> script == [] && r != Result.Failed(Transient) && Seen() == old(Seen())
    {
      var m := Tick(true);
      if m.fault { return Result.Failed(Transient); }
      if user !in users { return Result.Failed(NotFound); }
      r := Got(users[user]);
    }

    method GetReceipt() returns (r: Result<Doc>)
      modifies this
      ensures MayBecome(old(Row()), Row(), true) && Owner() == old(Owner())
      ensures r.Got? ==> Row() == Some(r.value)
      ensures r == Result.Failed(NotFound) ==> Row().None?
      ensures r.Failed? ==> r.code in {NotFound, Transient}
      ensures old(script) == [] ==> script == [] && r != Result.Failed(Transient) && Seen() == old(Seen())
    {
      var m := Tick(true);
      if m.fault { return Result.Failed(Transient); }
      if receipt !in receipts { return Result.Failed(NotFound); }
      r := Got(receipts[receipt]);
    }

    method TransitionReceipt(from: ReceiptStatus, to: ReceiptStatus) returns (o: Outcome)
      modifies this
      ensures Stable(old(Row()), Row()) && Owner() == old(Owner())
      ensures o in {Nil, Err(Validation), Err(Conflict), Err(Transient)}
      ensures o == Err(Validation) <==> !ReceiptCanMove(from, to)
      ensures o == Nil ==> Row().Some? && Row().value.status == to
      ensures o == Nil && old(Row()).Some? && !ReceiptTerminal(old(Row()).value.status) ==>
                Row().value == old(Row()).value.(status := to)
      ensures o != Nil ==> MayBecome(old(Row()), Row(), true)
      ensures o == Err(Conflict) ==> Row().None? || Row().value.status != from
      ensures old(script) == [] ==>
                && script == [] && o != Err(Transient)
                && Seen() == (if o == Nil then old(Seen()).With(to) else old(Seen()))
                && (o == Nil <==> ReceiptCanMove(from, to) && old(Seen()).Is(from))
    {
      if !ReceiptCanMove(from, to) { return Err(Validation); }
      var m := Tick(true);
      if m.fault { return Err(Transient); }
      if receipt !in receipts || receipts[receipt].status != from { return Err(Conflict); }
      receipts := receipts[receipt := receipts[receipt].(status := to)];
      o := Nil;
    }

    method SetReceiptStored(hash: Hash) returns (o: Outcome)
      modifies this
      ensures Stable(old(Row()), Row()) && Owner() == old(Owner())
      ensures o == Nil ==> Row().Some?
      ensures Row().Some? && old(Row()).Some? && !ReceiptTerminal(old(Row()).value.status) ==>
                Row().value.status == old(Row()).value.status
      ensures old(script) == [] && old(Row()).Some? ==>
                && script == [] && o == Nil
                && Seen() == old(Seen()).(row := Some(old(Row()).value.(stored := true, hash := hash)))
    {
      var m := Tick(true);
      if m.fault { return Err(Transient); }
      if receipt !in receipts { return Err(NotFound); }
      receipts := receipts[receipt := receipts[receipt].(stored := true, hash := hash)];
      o := Nil;
    }

    /** The newest receipt of the owner, not deleted, that carries the hash. */
    method FindReceiptByHash(owner: User, hash: Hash) returns (r: Result<Option<ReceiptId>>)
      modifies this
      ensures MayBecome(old(Row()), Row(), true) && Owner() == old(Owner())
      ensures r.Failed? ==> r.code == Transient
      ensures r.Got? ==> Newest(receipts, owner, hash, r.value)
      ensures r.Got? && r.value.Some? ==>
                var i := r.value.value;
                i in receipts && receipts[i].user == owner && receipts[i].hash == hash && receipts[i].status != Deleted
      ensures r.Got? && r.value.None? ==>
                forall i :: i in receipts && receipts[i].user == owner && receipts[i].hash == hash ==>
                              receipts[i].status == Deleted
      ensures old(script) == [] ==> script == [] && r.Got? && Seen() == old(Seen()) && receipts == old(receipts)
    {
      var m := Tick(true);
      if m.fault { return Result.Failed(Transient); }
      var rest, found := receipts.Keys, None;
      while rest != {}
        invariant rest <= receipts.Keys
        invariant Newest(map i | i in receipts && i !in rest :: receipts[i], owner, hash, found)
        decreases |rest|
      {
        var i :| i in rest;
        rest := rest - {i};
        if Intake.Carries(receipts[i], owner, hash)
           && (found.None? || receipts[found.value].createdAt < receipts[i].createdAt) {
          found := Some(i);
        }
      }
      assert (map i | i in receipts && i !in rest :: receipts[i]) == receipts;
      r := Got(found);
    }

    method IncrementUsage() returns (r: Result<nat>)
      modifies this
      ensures MayBecome(old(Row()), Row(), true) && Owner() == old(Owner())
      ensures r.Failed? ==> r.code == Transient
      ensures r.Got? ==> ocrPages == old(ocrPages) + 1 && r.value == ocrPages
      ensures old(script) == [] ==> script == [] && r.Got? && Seen() == old(Seen()).(pages := old(ocrPages) + 1)
    {
      var m := Tick(true);
      if m.fault { return Result.Failed(Transient); }
      ocrPages := ocrPages + 1;
      r := Got(ocrPages);
    }

    /** Any write that does not touch receipts or users; RecordAttempt and Reply. */
    method WriteElsewhere() returns (o: Outcome)
      modifies this
      ensures MayBecome(old(Row()), Row(), true) && Owner() == old(Owner())
      ensures old(script) == [] ==> script == [] && o == Nil && Seen() == old(Seen())
    {
      var m := Tick(true);
      o := if m.fault then Err(m.replyCode) else Nil;
    }

    /** FinalizeReceiptReview: a receipt in flight has no transaction, so the draft is inserted, or the receipt is
        not extracting and everything is rolled back. */
    method FinalizeReceiptReview() returns (o: Outcome)
      modifies this
      ensures Stable(old(Row()), Row()) && Owner() == old(Owner())
      ensures o in {Nil, Err(Conflict), Err(Transient)}
      ensures o == Nil ==> Terminal()
      ensures o == Err(Conflict) ==> Row().None? || Row().value.status != Extracting
      ensures o != Nil ==> MayBecome(old(Row()), Row(), true)
      ensures old(script) == [] && old(Seen()).Is(Extracting) ==>
                script == [] && o == Nil && Seen() == old(Seen()).With(ReviewRequired)
    {
      var m := Tick(true);
      if m.fault { return Err(Transient); }
      if receipt !in receipts || receipts[receipt].status != Extracting { return Err(Conflict); }
      receipts := receipts[receipt := receipts[receipt].(status := ReviewRequired)];
      o := Nil;
    }

    // -------------------------------------------------------------- failure handling

    /** A permanent failure: nil only once the receipt is terminal; any other error is transient or comes after
        the receipt is terminal. */
    method FailWith(status: ReceiptStatus) returns (o: Outcome)
      modifies this
      ensures Stable(old(Row()), Row()) && Owner() == old(Owner())
      ensures o == Nil ==> Terminal()
      ensures o == Nil || o == Err(Transient) || Terminal()
      ensures old(script) == [] && old(Seen()).InFlight() && old(Seen()).Is(status) ==>
                script == [] && o == Nil && Seen() == old(Seen()).With(FailedPermanent)
    {
      var moved := TransitionReceipt(status, FailedPermanent);
      if moved != Nil {
        if moved != Err(Conflict) && moved != Err(Validation) { return Err(Transient); }
        var latest := GetReceipt();
        if latest.Failed? || !ReceiptTerminal(latest.value.status) { return Err(Transient); }
      }
      assert Terminal();
      var _ := WriteElsewhere();
      o := WriteElsewhere();
    }

    method Fail(status: ReceiptStatus, code: Code) returns (o: Outcome)
      modifies this
      ensures Stable(old(Row()), Row()) && Owner() == old(Owner())
      ensures o == Nil ==> Terminal()
      ensures o == Nil || o == Err(Transient) || Terminal()
      ensures old(script) == [] && old(Seen()).InFlight() && old(Seen()).Is(status) ==>
                && script == [] && Ending(Seen(), o) == Broken(old(Seen()), code)
                && o == (if code == Transient then Err(Transient) else Nil)
                && Seen().Is(if code == Transient then FailedTransient else FailedPermanent)
    {
      if code == Transient {
        var _ := TransitionReceipt(status, FailedTransient);
        var _ := WriteElsewhere();
        return Err(Transient);
      }
      o := FailWith(status);
    }

    /** A permanent error on a receipt that is not terminal becomes a retry. */
    method AckPolicy(err: Outcome) returns (o: Outcome)
      modifies this
      ensures Stable(old(Row()), Row()) && Owner() == old(Owner())
      ensures o == Nil || o == Err(Transient)
      ensures o == Nil ==> err == Nil || Terminal()
      ensures err == Nil ==> o == Nil && Row() == old(Row())
      ensures old(script) == [] ==>
                && script == [] && Seen() == old(Seen())
                && o == if err == Nil || err == Err(Transient) then err else if Terminal() then Nil else Err(Transient)
    {
      if err == Nil || err == Err(Transient) { return err; }
      var r := GetReceipt();
      if r.Failed? || !ReceiptTerminal(r.value.status) { return Err(Transient); }
      o := Nil;
    }

    /** A state conflict is taken as another lane's progress. */
    method ConflictAsDone(err: Outcome) returns (o: Outcome)
      ensures o == if err in {Err(Conflict), Err(Validation)} then Nil else err
    {
      o := if err in {Err(Conflict), Err(Validation)} then Nil else err;
    }

    // -------------------------------------------------------------- the three phases

    method Prepare() returns (prep: Prep, o: Outcome)
      modifies this
      ensures Stable(old(Row()), Row()) && Owner() == old(Owner())
      ensures o == Nil && prep == Skip ==> Settled() || (old(Row()).Some? && old(Row()).value.status == Received)
      ensures old(script) == [] ==>
                && script == []
                && (prep.Go? <==> Workable(old(Seen()), user))
                && (prep.Go? <==>
                    && old(Owner()).Some? && old(Owner()).value != UserDeleted
                    && old(Row()).Some? && old(Row()).value.user == user
                    && old(Row()).value.status in {Queued, FailedTransient, Downloading, Stored, Extracting})
                && Seen() == (if prep.Go? then Claimed(old(Seen())) else old(Seen()))
                && (o == Nil || o == Err(Validation))
                && (o != Nil <==>
                    Owner().Some? && Owner().value != UserDeleted && Row().Some? && Row().value.user != user)
      ensures o == Nil && prep.Go? ==> Row() == Some(prep.doc) && prep.doc.status in {Downloading, Stored, Extracting}
    {
      prep := Skip;
      var u := GetUser();
      if u.Failed? { return Skip, if u.code == NotFound then Nil else Err(u.code); }
      if u.value == UserDeleted { return Skip, Nil; }
      var r := GetReceipt();
      if r.Failed? { return Skip, if r.code == NotFound then Nil else Err(r.code); }
      if r.value.user != user { return Skip, Err(Validation); }
      var status := r.value.status;
      if ReceiptTerminal(status) || status == Received { return Skip, Nil; }
      if status == FailedTransient {
        var moved := TransitionReceipt(FailedTransient, Queued);
        if moved != Nil { o := ConflictAsDone(moved); return; }
        status := Queued;
      }
      var _ := WriteElsewhere();
      if status == Queued {
        var moved := TransitionReceipt(Queued, Downloading);
        if moved != Nil { o := ConflictAsDone(moved); return; }
        status := Downloading;
      }
      prep, o := Go(receipts[receipt]), Nil;
    }

    /** Phase two: the duplicate check, the storage record and the quota. `armed` allows one extraction call. */
    method Arm(hash: Hash, enabled: bool, limit: nat) returns (armed: bool, o: Outcome)
      modifies this
      ensures Stable(old(Row()), Row()) && Owner() == old(Owner())
      ensures o == Nil && !armed ==> Settled()
      ensures o == Nil && armed ==> Row().Some? && Row().value.status == Extracting
      ensures armed ==> limit == 0 || ocrPages <= limit
      ensures old(script) == [] && old(Seen()).InFlight() && Clear(old(Seen()), hash) ==>
                && script == [] && o == Nil && Seen() == Armed(old(Seen()), hash, enabled, limit)
                && (armed <==> Seen().Is(Extracting))
    {
      armed := false;
      var r := GetReceipt();
      if r.Failed? { return false, if r.code == NotFound then Nil else Err(r.code); }
      var doc := r.value;
      if ReceiptTerminal(doc.status) { return false, Nil; }
      var dup := IsDuplicate(doc.user, hash);
      if dup.Failed? { return false, Err(dup.code); }
      if dup.value { o := FailWith(doc.status); return; }
      var kept;
      kept, o := Keep(doc, hash);
      if o != Nil || !kept { return; }
      armed, o := Charge(enabled, limit);
    }

    method IsDuplicate(owner: User, hash: Hash) returns (r: Result<bool>)
      modifies this
      ensures MayBecome(old(Row()), Row(), true) && Owner() == old(Owner())
      ensures r.Failed? ==> r.code == Transient
      ensures old(script) == [] && old(Row()).Some? && owner == old(Row()).value.user && Clear(old(Seen()), hash) ==>
                script == [] && Seen() == old(Seen()) && r == Got(old(Seen()).HasTwin(hash))
    {
      if hash == 0 { return Got(false); }
      var dup := FindReceiptByHash(owner, hash);
      if dup.Failed? { return Result.Failed(dup.code); }
      r := Got(dup.value.Some? && dup.value.value != receipt);
      if r.value { assert dup.value.value in receipts - {receipt}; }
    }

    /** The storage record and the move to extracting. Nil without a kept image means that the receipt has moved on. */
    method Keep(doc: Doc, hash: Hash) returns (kept: bool, o: Outcome)
      requires Row() == Some(doc) && !ReceiptTerminal(doc.status)
      modifies this
      ensures Stable(old(Row()), Row()) && Owner() == old(Owner())
      ensures o == Nil && !kept ==> Settled()
      ensures o == Nil && kept ==> Row().Some? && Row().value.status == Extracting
      ensures old(script) == [] && old(Seen()).InFlight() ==>
                script == [] && kept && o == Nil && Seen() == Kept(old(Seen()), hash)
    {
      kept := false;
      if !doc.stored {
        var stored := SetReceiptStored(hash);
        if stored != Nil { return false, Err(Transient); }
      }
      var status := doc.status;
      if status == Downloading {
        var moved := TransitionReceipt(Downloading, Stored);
        if moved != Nil { o := ConflictAsDone(moved); return; }
        status := Stored;
      }
      var latest := GetReceipt();
      if latest.Got? { status := latest.value.status; }
      if status == Stored {
        var moved := TransitionReceipt(Stored, Extracting);
        if moved != Nil { o := ConflictAsDone(moved); return; }
        status := Extracting;
      }
      if status != Extracting { return false, Err(Internal); }
      return true, Nil;
    }

    /** The kill switch and the monthly page quota. */
    method Charge(enabled: bool, limit: nat) returns (armed: bool, o: Outcome)
      requires Row().Some? && Row().value.status == Extracting
      modifies this
      ensures Stable(old(Row()), Row()) && Owner() == old(Owner())
      ensures o == Nil && !armed ==> Terminal()
      ensures o == Nil && armed ==> Row().Some? && Row().value.status == Extracting
      ensures armed ==> limit == 0 || ocrPages <= limit
      ensures old(script) == [] ==>
                && script == [] && o == Nil && (armed <==> Seen().Is(Extracting))
                && Seen() == Charged(old(Seen()), enabled, limit)
    {
      armed := false;
      if !enabled { o := FailWith(Extracting); return; }
      var count := IncrementUsage();
      if count.Failed? { o := Fail(Extracting, count.code); return; }
      if limit > 0 && count.value > limit { o := FailWith(Extracting); return; }
      armed, o := true, Nil;
    }

    /** Phase three: the extraction result becomes a draft under review, or a failure. */
    method Finish(x: Extraction) returns (o: Outcome)
      modifies this
      ensures Stable(old(Row()), Row()) && Owner() == old(Owner())
      ensures o == Nil && x != DraftFailed(Conflict) && old(Row()).Some? && old(Row()).value.status == Extracting ==>
                Settled()
      ensures o == Nil && old(Row()).None? ==> Settled()
      ensures o == Nil && old(Terminal()) ==> Settled()
      ensures old(script) == [] && old(Seen()).Is(Extracting) ==>
                script == [] && Ending(Seen(), o) == Finished(old(Seen()), x)
    {
      var r := GetReceipt();
      if r.Failed? { return if r.code == NotFound then Nil else Err(r.code); }
      var status := r.value.status;
      if ReceiptTerminal(status) { return Nil; }
      match x
      case ExtractFailed(code) =>
        if code == Unsupported { o := FailWith(status); } else { o := Fail(status, code); }
      case DraftFailed(code) =>
        if code == Conflict { o := ConflictAsDone(Err(code)); } else { o := Fail(status, code); }
      case Drafted =>
        var done := FinalizeReceiptReview();
        if done == Err(Conflict) { o := ConflictAsDone(done); return; }
        if done != Nil { o := Fail(status, done.code); return; }
        o := WriteElsewhere();
        if o == Nil {
          var _ := WriteElsewhere();
          var _ := WriteElsewhere();
        }
    }

    /** The locked answer to a failed download. */
    method LoadFailure(code: Code) returns (o: Outcome)
      modifies this
      ensures Stable(old(Row()), Row()) && Owner() == old(Owner())
      ensures o == Nil && code != Conflict ==> Settled()
      ensures o == Nil || o == Err(Transient)
      ensures old(script) == [] && old(Seen()).InFlight() ==>
                && script == []
                && Ending(Seen(), o)
                   == (if code == Conflict then Ending(old(Seen()), Nil) else Broken(old(Seen()), code))
    {
      var r := GetReceipt();
      if r.Failed? { return if r.code == NotFound then Nil else Err(r.code); }
      if code == Conflict { o := ConflictAsDone(Err(code)); } else { o := Fail(r.value.status, code); }
      o := AckPolicy(o);
    }

    /** The whole job. It returns nil or a transient error, never anything else, so the worker either acknowledges or
        retries; and it is acknowledged only when nothing is left to do. The two exceptions are stated: a job whose
        receipt was never queued, and a download or drafting error that carries the conflict code. */
    method Handle(load: Load, x: Extraction, enabled: bool, limit: nat) returns (o: Outcome)
      modifies this
      ensures o == Nil || o == Err(Transient)
      ensures o == Nil && load != LoadFailed(Conflict) && x != DraftFailed(Conflict) ==>
                Settled() || (old(Row()).Some? && old(Row()).value.status == Received)
      ensures old(script) == [] && (load.Loaded? ==> Clear(old(Seen()), load.hash)) ==>
                Ending(Seen(), o) == Undisturbed(old(Seen()), user, load, x, enabled, limit)
    {
      hide Stable, Armed, Finished, Broken;
      var prep;
      prep, o := Prepare();
      o := AckPolicy(o);
      if o != Nil || prep == Skip { return; }

      var _ := Tick(false);
      if load.LoadFailed? { o := LoadFailure(load.loadCode); return; }
      o := Extract(load.hash, x, enabled, limit);
    }

    /** The phases after the download. */
    method Extract(hash: Hash, x: Extraction, enabled: bool, limit: nat) returns (o: Outcome)
      modifies this
      ensures o == Nil || o == Err(Transient)
      ensures o == Nil && x != DraftFailed(Conflict) ==> Settled()
      ensures old(script) == [] && old(Seen()).InFlight() && Clear(old(Seen()), hash) ==>
                var w := Armed(old(Seen()), hash, enabled, limit);
                Ending(Seen(), o) == if w.Is(Extracting) then Finished(w, x) else Ending(w, Nil)
    {
      var armed;
      armed, o := Arm(hash, enabled, limit);
      o := AckPolicy(o);
      if o != Nil || !armed { return; }

      var _ := Tick(false);
      o := Finish(x);
      o := AckPolicy(o);
    }
  }
}
