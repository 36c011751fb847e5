/**
Scheduled summaries under any number of concurrent runners. A runner reads the clock once, lists due schedules, and
then reports and advances each; it may stop anywhere, and nothing but the guard on the due instant relates runners.
*/
module SummaryRuns {
  import opened Calendar
  import opened Periods
  import opened Schedule

  type User = nat
  type Lane = nat

  /** A user has at most one schedule per frequency. */
  datatype Sched = Sched(user: User, frequency: Frequency)

  datatype Setting = Setting(zone: Zone, frequency: Frequency, minute: int)

  /** The idempotency key of a summary. */
  datatype Key = Key(sched: Sched, start: Instant)

  /** `batch` holds the due instant each schedule was listed with, `replied` those already reported. */
  datatype Runner = Runner(now: Instant, batch: map<Sched, Instant>, replied: set<Sched>)

  datatype Event = Event(sched: Sched, now: Instant)

  /** `enqueued` logs the replies that inserted an outbox row, `won` the advances whose guard held, in order. */
  datatype State = State(
    settings: map<Sched, Setting>, due: map<Sched, Instant>, enabled: set<Sched>, clock: Instant,
    lanes: map<Lane, Runner>, rows: set<Key>, enqueued: seq<Event>, won: seq<Event>)

  datatype Step =
    | Tick(clock: Instant)
    | Start(lane: Lane)
    | List(lane: Lane, listed: set<Sched>)
    | Reply(lane: Lane, sched: Sched)
    | Advance(lane: Lane, sched: Sched)
    | Stop(lane: Lane)
    | Set(sched: Sched, at: Instant)
    | Disable(sched: Sched)

  predicate ValidSetting(c: Setting) {
    0 <= c.minute < 1440 && c.frequency != OtherFrequency
  }

  function NextFor(c: Setting, now: Instant): Instant
    requires ValidSetting(c)
  {
    NextDelivery(now, c.zone, c.frequency, c.minute).at
  }

  function LatestFor(c: Setting, now: Instant): Instant
    requires ValidSetting(c)
  {
    LatestDelivery(now, c.zone, c.frequency, c.minute).at
  }

  /** The period a runner that read the clock at `now` reports. */
  function PeriodFor(c: Setting, now: Instant): Period
    requires ValidSetting(c)
  {
    Reported(LatestFor(c, now), c.zone, c.frequency)
  }

  /** What the schedule arithmetic promises the protocol. */
  lemma Windows(c: Setting, a: Instant, b: Instant)
    requires ValidSetting(c)
    ensures LatestFor(c, a) <= a < NextFor(c, a)
    ensures a <= b ==> NextFor(c, a) <= NextFor(c, b)
    ensures NextFor(c, a) <= b ==> PeriodFor(c, a).end <= PeriodFor(c, b).start
    ensures a <= b < NextFor(c, a) ==> PeriodFor(c, a) == PeriodFor(c, b)
    ensures PeriodFor(c, a).start < PeriodFor(c, a).end <= LatestFor(c, a)
  {
    hide NextDelivery, LatestDelivery, Reported, Scheduled;
    DeliveriesBracketNow(a, c.zone, c.frequency, c.minute);
    DeliveriesBracketNow(b, c.zone, c.frequency, c.minute);
    ReportedPeriodsAdjoin(a, c.zone, c.frequency, c.minute);
    if a <= b {
      LatestMonotone(a, b, c.zone, c.frequency, c.minute);
      if NextFor(c, a) <= b {
        ReportedInOrder(LatestFor(c, a), LatestFor(c, b), c.zone, c.frequency, c.minute);
      }
    }
  }

  predicate Enabled(s: State, step: Step) {
    match step
    case Tick(t) => s.clock <= t
    case Start(lane) => lane !in s.lanes
    case List(lane, listed) =>
      && lane in s.lanes
      && forall k :: k in listed ==> k in s.due && k in s.enabled && s.due[k] <= s.lanes[lane].now
    case Reply(lane, k) => lane in s.lanes && k in s.lanes[lane].batch && k in s.settings && ValidSetting(s.settings[k])
    case Advance(lane, k) =>
      && lane in s.lanes && k in s.lanes[lane].batch && k in s.lanes[lane].replied
      && k in s.settings && ValidSetting(s.settings[k])
    case Stop(lane) => lane in s.lanes
    // the chat handler reads the clock and saves the schedule while it holds the user's lock, so no advance of this
    // schedule falls between the two
    case Set(k, at) =>
      && k in s.settings && ValidSetting(s.settings[k]) && at <= s.clock
      && forall i :: 0 <= i < |s.won| && s.won[i].sched == k ==> s.won[i].now <= at
    case Disable(_) => true
  }

  /** Whether an advance finds the schedule as it was listed. */
  predicate Wins(s: State, lane: Lane, k: Sched)
    requires lane in s.lanes && k in s.lanes[lane].batch
  {
    k in s.due && k in s.enabled && s.due[k] == s.lanes[lane].batch[k]
  }

  function KeyOf(s: State, e: Event): Key
    requires e.sched in s.settings && ValidSetting(s.settings[e.sched])
  {
    Key(e.sched, PeriodFor(s.settings[e.sched], e.now).start)
  }

  function Apply(s: State, step: Step): State
    requires Enabled(s, step)
  {
    match step
    case Tick(t) => s.(clock := t)
    case Start(lane) => s.(lanes := s.lanes[lane := Runner(s.clock, map[], {})])
    case List(lane, listed) =>
      s.(lanes := s.lanes[lane := Runner(s.lanes[lane].now, map k | k in listed :: s.due[k], {})])
    case Reply(lane, k) =>
      var r := s.lanes[lane];
      var e := Event(k, r.now);
      var s1 := s.(lanes := s.lanes[lane := r.(replied := r.replied + {k})]);
      if KeyOf(s, e) in s.rows then s1 else s1.(rows := s.rows + {KeyOf(s, e)}, enqueued := s.enqueued + [e])
    case Advance(lane, k) =>
      var r := s.lanes[lane];
      var s1 := s.(lanes := s.lanes[lane := r.(batch := r.batch - {k})]);
      if !Wins(s, lane, k) then s1
      else s1.(due := s.due[k := NextFor(s.settings[k], r.now)], won := s.won + [Event(k, r.now)])
    case Stop(lane) => s.(lanes := s.lanes - {lane})
    case Set(k, at) => s.(due := s.due[k := NextFor(s.settings[k], at)], enabled := s.enabled + {k})
    case Disable(k) => s.(enabled := s.enabled - {k})
  }

  ghost predicate ValidRun(s: State, steps: seq<Step>)
    decreases steps
  {
    steps == [] || (Enabled(s, steps[0]) && ValidRun(Apply(s, steps[0]), steps[1..]))
  }

  ghost function Run(s: State, steps: seq<Step>): State
    requires ValidRun(s, steps)
    decreases steps
  {
    if steps == [] then s else Run(Apply(s, steps[0]), steps[1..])
  }

  /** Nothing reported, no runner started. */
  predicate Fresh(s: State) {
    s.lanes == map[] && s.rows == {} && s.enqueued == [] && s.won == []
  }

  // ---------------------------------------------------------------- what every step keeps

  ghost predicate Known(s: State, e: Event) {
    e.sched in s.settings && ValidSetting(s.settings[e.sched]) && e.now <= s.clock
  }

  /** Listed schedules were due, and what a runner reported is in the outbox. */
  ghost predicate RunnerOk(s: State, r: Runner) {
    && r.now <= s.clock
    && (forall k :: k in r.batch ==> r.batch[k] <= r.now)
    && (forall k :: k in r.replied ==> Known(s, Event(k, r.now)) && KeyOf(s, Event(k, r.now)) in s.rows)
  }

  /** The outbox holds exactly the logged summaries, each once. */
  ghost predicate LogOk(s: State) {
    && (forall i :: 0 <= i < |s.enqueued| ==> Known(s, s.enqueued[i]) && KeyOf(s, s.enqueued[i]) in s.rows)
    && (forall i, j :: 0 <= i < j < |s.enqueued| ==> KeyOf(s, s.enqueued[i]) != KeyOf(s, s.enqueued[j]))
  }

  /** A won advance reported its period, and the schedule waits for a later delivery; later wins have later periods. */
  ghost predicate WonOk(s: State) {
    && (forall i :: 0 <= i < |s.won| ==> Known(s, s.won[i]) && KeyOf(s, s.won[i]) in s.rows && s.won[i].sched in s.due
                                         && NextFor(s.settings[s.won[i].sched], s.won[i].now) <= s.due[s.won[i].sched])
    && (forall i, j :: 0 <= i < j < |s.won| && s.won[i].sched == s.won[j].sched ==>
          NextFor(s.settings[s.won[i].sched], s.won[i].now) <= s.won[j].now)
  }

  ghost predicate Inv(s: State) {
    (forall l :: l in s.lanes ==> RunnerOk(s, s.lanes[l])) && LogOk(s) && WonOk(s)
  }

  lemma SameKeys(s: State, s': State)
    requires s'.settings == s.settings && s.clock <= s'.clock
    ensures forall e :: Known(s, e) ==> Known(s', e) && KeyOf(s', e) == KeyOf(s, e)
  {
    hide PeriodFor;
  }

  lemma ReplyKeeps(s: State, step: Step)
    requires Inv(s) && Enabled(s, step) && step.Reply?
    ensures Inv(Apply(s, step))
  {
    hide NextFor, PeriodFor, KeyOf;
    var s' := Apply(s, step);
    SameKeys(s, s');
    assert s.rows <= s'.rows;
    var r := s.lanes[step.lane];
    assert RunnerOk(s, r) && Known(s, Event(step.sched, r.now));
    forall l | l in s'.lanes ensures RunnerOk(s', s'.lanes[l]) {
      assert RunnerOk(s, s.lanes[l]);
    }
    ReplyLog(s, step);
    assert WonOk(s');
  }

  lemma ReplyLog(s: State, step: Step)
    requires Inv(s) && Enabled(s, step) && step.Reply?
    ensures LogOk(Apply(s, step))
  {
    hide NextFor, PeriodFor, KeyOf, WonOk;
    var s' := Apply(s, step);
    SameKeys(s, s');
    var r := s.lanes[step.lane];
    assert RunnerOk(s, r) && Known(s, Event(step.sched, r.now));
  }

  lemma AdvanceRunners(s: State, step: Step)
    requires Inv(s) && Enabled(s, step) && step.Advance?
    ensures forall l :: l in Apply(s, step).lanes ==> RunnerOk(Apply(s, step), Apply(s, step).lanes[l])
  {
    hide NextFor, PeriodFor, KeyOf, WonOk, LogOk;
    var s' := Apply(s, step);
    SameKeys(s, s');
    forall l | l in s'.lanes ensures RunnerOk(s', s'.lanes[l]) {
      assert RunnerOk(s, s.lanes[l]);
    }
  }

  lemma AdvanceKeeps(s: State, step: Step)
    requires Inv(s) && Enabled(s, step) && step.Advance?
    ensures Inv(Apply(s, step))
  {
    hide NextFor, PeriodFor, KeyOf;
    var s' := Apply(s, step);
    AdvanceRunners(s, step);
    AdvanceWins(s, step);
    SameKeys(s, s');
    assert LogOk(s');
  }

  lemma AdvanceWins(s: State, step: Step)
    requires Inv(s) && Enabled(s, step) && step.Advance?
    ensures WonOk(Apply(s, step))
  {
    hide NextFor, PeriodFor, KeyOf, LogOk;
    var s' := Apply(s, step);
    var k, r := step.sched, s.lanes[step.lane];
    SameKeys(s, s');
    assert RunnerOk(s, r);
    if Wins(s, step.lane, k) {
      Windows(s.settings[k], r.now, r.now);
      assert s.due[k] <= r.now < s'.due[k];
      assert forall i :: 0 <= i < |s.won| && s.won[i].sched == k ==>
                           NextFor(s.settings[k], s.won[i].now) <= s.due[k] <= r.now;
      assert KeyOf(s, Event(k, r.now)) in s.rows;
    }
  }

  lemma SetKeeps(s: State, step: Step)
    requires Inv(s) && Enabled(s, step) && step.Set?
    ensures Inv(Apply(s, step))
  {
    hide NextFor, PeriodFor;
    var s' := Apply(s, step);
    forall l | l in s'.lanes ensures RunnerOk(s', s'.lanes[l]) {
      assert RunnerOk(s, s.lanes[l]);
    }
    forall i | 0 <= i < |s.won| && s.won[i].sched == step.sched
      ensures NextFor(s.settings[step.sched], s.won[i].now) <= s'.due[step.sched] {
      Windows(s.settings[step.sched], s.won[i].now, step.at);
    }
  }

  lemma OtherKeeps(s: State, step: Step)
    requires Inv(s) && Enabled(s, step) && !step.Reply? && !step.Advance? && !step.Set?
    ensures Inv(Apply(s, step))
  {
    hide NextFor, PeriodFor;
    var s' := Apply(s, step);
    forall l | l in s'.lanes ensures RunnerOk(s', s'.lanes[l]) {
      if l in s.lanes { assert RunnerOk(s, s.lanes[l]); }
    }
  }

  lemma StepKeeps(s: State, step: Step)
    requires Inv(s) && Enabled(s, step)
    ensures Inv(Apply(s, step)) && Apply(s, step).settings == s.settings
  {
    hide NextFor, PeriodFor, Inv;
    match step
    case Reply(_, _) => ReplyKeeps(s, step);
    case Advance(_, _) => AdvanceKeeps(s, step);
    case Set(_, _) => SetKeeps(s, step);
    case _ => OtherKeeps(s, step);
  }

  lemma {:induction false} RunKeeps(s: State, steps: seq<Step>)
    requires Inv(s) && ValidRun(s, steps)
    ensures Inv(Run(s, steps)) && Run(s, steps).settings == s.settings
    decreases steps
  {
    hide NextFor, PeriodFor, Inv, Enabled, Apply;
    if steps != [] {
      StepKeeps(s, steps[0]);
      RunKeeps(Apply(s, steps[0]), steps[1..]);
    }
  }

  // ---------------------------------------------------------------- main results

  function PeriodOf(s: State, e: Event): Period
    requires e.sched in s.settings && ValidSetting(s.settings[e.sched])
  {
    PeriodFor(s.settings[e.sched], e.now)
  }

  predicate Disjoint(p: Period, q: Period) {
    p.end <= q.start || q.end <= p.start
  }

  lemma DistinctPeriodsAreDisjoint(c: Setting, a: Instant, b: Instant)
    requires ValidSetting(c) && PeriodFor(c, a).start != PeriodFor(c, b).start
    ensures Disjoint(PeriodFor(c, a), PeriodFor(c, b))
    ensures a < b <==> PeriodFor(c, a).end <= PeriodFor(c, b).start
  {
    hide NextFor, PeriodFor, LatestFor;
    Windows(c, a, b);
    Windows(c, b, a);
  }

  /** Any number of runners enqueue at most one summary for any part of a user's time at a frequency. */
  lemma OneSummaryPerPeriod(s: State, steps: seq<Step>, i: nat, j: nat)
    requires Fresh(s) && ValidRun(s, steps)
    requires var s' := Run(s, steps); i < j < |s'.enqueued| && s'.enqueued[i].sched == s'.enqueued[j].sched
    ensures var s' := Run(s, steps);
            && s'.enqueued[i].sched in s'.settings && ValidSetting(s'.settings[s'.enqueued[i].sched])
            && Disjoint(PeriodOf(s', s'.enqueued[i]), PeriodOf(s', s'.enqueued[j]))
  {
    hide NextFor, PeriodFor, Enabled, Apply, ValidRun, Run;
    RunKeeps(s, steps);
    var s' := Run(s, steps);
    assert LogOk(s') && Known(s', s'.enqueued[i]);
    assert KeyOf(s', s'.enqueued[i]) != KeyOf(s', s'.enqueued[j]);
    DistinctPeriodsAreDisjoint(s'.settings[s'.enqueued[i].sched], s'.enqueued[i].now, s'.enqueued[j].now);
  }

  /** The periods of won advances strictly increase, and each was enqueued before its advance won. */
  lemma WonPeriodsIncrease(s: State, steps: seq<Step>, i: nat, j: nat)
    requires Fresh(s) && ValidRun(s, steps)
    requires var s' := Run(s, steps); i < j < |s'.won| && s'.won[i].sched == s'.won[j].sched
    ensures var s' := Run(s, steps);
            && s'.won[i].sched in s'.settings && ValidSetting(s'.settings[s'.won[i].sched])
            && PeriodOf(s', s'.won[i]).start < PeriodOf(s', s'.won[i]).end <= PeriodOf(s', s'.won[j]).start
            && KeyOf(s', s'.won[i]) in s'.rows && KeyOf(s', s'.won[j]) in s'.rows
  {
    hide NextFor, PeriodFor, LatestFor, Enabled, Apply, ValidRun, Run;
    RunKeeps(s, steps);
    var s' := Run(s, steps);
    assert WonOk(s') && Known(s', s'.won[i]);
    Windows(s'.settings[s'.won[i].sched], s'.won[i].now, s'.won[j].now);
  }

  /** A won advance moves the schedule strictly past the instant it was due at and past the runner's clock reading. */
  lemma WonAdvanceMovesOn(s: State, steps: seq<Step>, lane: Lane, k: Sched)
    requires Fresh(s) && ValidRun(s, steps)
    requires Enabled(Run(s, steps), Advance(lane, k)) && Wins(Run(s, steps), lane, k)
    ensures var s' := Run(s, steps);
            s'.due[k] <= s'.lanes[lane].now < Apply(s', Advance(lane, k)).due[k]
    ensures var s' := Run(s, steps);
            KeyOf(s', Event(k, s'.lanes[lane].now)) in s'.rows
  {
    hide NextFor, PeriodFor, LatestFor, ValidRun, Run;
    RunKeeps(s, steps);
    var s' := Run(s, steps);
    assert RunnerOk(s', s'.lanes[lane]);
    Windows(s'.settings[k], s'.lanes[lane].now, s'.lanes[lane].now);
  }

  /** Summaries of one schedule are enqueued in calendar order exactly when the runners that enqueued them read the
      clock in that order. */
  lemma EnqueuedInOrder(s: State, steps: seq<Step>, i: nat, j: nat)
    requires Fresh(s) && ValidRun(s, steps)
    requires var s' := Run(s, steps); i < j < |s'.enqueued| && s'.enqueued[i].sched == s'.enqueued[j].sched
    ensures var s' := Run(s, steps);
            && s'.enqueued[i].sched in s'.settings && ValidSetting(s'.settings[s'.enqueued[i].sched])
            && (s'.enqueued[i].now < s'.enqueued[j].now <==>
                PeriodOf(s', s'.enqueued[i]).end <= PeriodOf(s', s'.enqueued[j]).start)
  {
    hide NextFor, PeriodFor, Enabled, Apply, ValidRun, Run;
    RunKeeps(s, steps);
    var s' := Run(s, steps);
    assert LogOk(s') && Known(s', s'.enqueued[i]);
    assert KeyOf(s', s'.enqueued[i]) != KeyOf(s', s'.enqueued[j]);
    DistinctPeriodsAreDisjoint(s'.settings[s'.enqueued[i].sched], s'.enqueued[i].now, s'.enqueued[j].now);
  }

  /** One runner at a time: each starts after the previous one ended. */
  ghost predicate Serial(s: State, steps: seq<Step>)
    requires ValidRun(s, steps)
    decreases steps
  {
    steps == [] || ((steps[0].Start? ==> s.lanes == map[]) && Serial(Apply(s, steps[0]), steps[1..]))
  }

  ghost predicate ReadInOrder(s: State) {
    && (forall l, m :: l in s.lanes && m in s.lanes ==> l == m)
    && (forall i :: 0 <= i < |s.enqueued| ==> s.enqueued[i].now <= s.clock)
    && (forall i, l :: 0 <= i < |s.enqueued| && l in s.lanes ==> s.enqueued[i].now <= s.lanes[l].now <= s.clock)
    && (forall i, j :: 0 <= i < j < |s.enqueued| ==> s.enqueued[i].now <= s.enqueued[j].now)
    && (forall l :: l in s.lanes ==> s.lanes[l].now <= s.clock)
  }

  lemma SerialStep(s: State, step: Step)
    requires ReadInOrder(s) && Enabled(s, step) && (step.Start? ==> s.lanes == map[])
    ensures ReadInOrder(Apply(s, step))
  {
    hide NextFor, PeriodFor, KeyOf, Wins, ValidSetting;
  }

  lemma {:induction false} SerialReadsInOrder(s: State, steps: seq<Step>)
    requires ReadInOrder(s) && ValidRun(s, steps) && Serial(s, steps)
    ensures ReadInOrder(Run(s, steps))
    decreases steps
  {
    hide Enabled, Apply, ReadInOrder;
    if steps != [] {
      SerialStep(s, steps[0]);
      SerialReadsInOrder(Apply(s, steps[0]), steps[1..]);
    }
  }

  /** With one runner at a time the summaries of a schedule are enqueued in strictly increasing calendar order. */
  lemma SerialRunnersReportInOrder(s: State, steps: seq<Step>, i: nat, j: nat)
    requires Fresh(s) && ValidRun(s, steps) && Serial(s, steps)
    requires var s' := Run(s, steps); i < j < |s'.enqueued| && s'.enqueued[i].sched == s'.enqueued[j].sched
    ensures var s' := Run(s, steps);
            && s'.enqueued[i].sched in s'.settings && ValidSetting(s'.settings[s'.enqueued[i].sched])
            && PeriodOf(s', s'.enqueued[i]).end <= PeriodOf(s', s'.enqueued[j]).start
  {
    hide NextFor, PeriodFor, Enabled, Apply, ValidRun, Run, Serial;
    SerialReadsInOrder(s, steps);
    EnqueuedInOrder(s, steps, i, j);
    RunKeeps(s, steps);
    var s' := Run(s, steps);
    assert LogOk(s') && KeyOf(s', s'.enqueued[i]) != KeyOf(s', s'.enqueued[j]);
  }

  lemma {:induction false} RunAppend(s: State, steps: seq<Step>, step: Step)
    requires ValidRun(s, steps) && Enabled(Run(s, steps), step)
    ensures ValidRun(s, steps + [step]) && Run(s, steps + [step]) == Apply(Run(s, steps), step)
    decreases steps
  {
    hide Enabled, Apply;
    if steps == [] {
      assert (steps + [step])[0] == step && (steps + [step])[1..] == [];
    } else {
      assert (steps + [step])[0] == steps[0] && (steps + [step])[1..] == steps[1..] + [step];
      RunAppend(Apply(s, steps[0]), steps[1..], step);
    }
  }

  lemma Extend(s: State, steps: seq<Step>, now: State, step: Step) returns (more: seq<Step>, next: State)
    requires ValidRun(s, steps) && now == Run(s, steps) && Enabled(now, step)
    ensures more == steps + [step] && ValidRun(s, more)
    ensures next == Apply(now, step) == Run(s, more)
  {
    hide Enabled, Apply;
    RunAppend(s, steps, step);
    more := steps + [step];
    next := Apply(now, step);
  }

  /** A daily summary at midnight that is due at instant 0. */
  function DailyAtMidnight(): State {
    var k := Sched(0, Daily);
    State(map[k := Setting(0, Daily, 0)], map[k := 0], {k}, 0, map[], {}, [], [])
  }

  lemma FirstDay(c: Setting)
    requires c == Setting(0, Daily, 0)
    ensures PeriodFor(c, 0).end <= PeriodFor(c, DAY).start && PeriodFor(c, 0).start < PeriodFor(c, 0).end
  {
    hide NextDelivery, LatestDelivery, Reported;
    DeliveriesBracketNow(0, 0, Daily, 0);
    assert Scheduled(DAY, 0, Daily, 0);
    Windows(c, 0, DAY);
  }

  /** Without that order the claim fails: a runner that read the clock on one day and is overtaken by a runner of the
      next day still enqueues the older period, after the newer one. */
  lemma StaleRunnerReportsLate() returns (steps: seq<Step>)
    ensures Fresh(DailyAtMidnight()) && ValidRun(DailyAtMidnight(), steps)
    ensures var s' := Run(DailyAtMidnight(), steps);
            && s'.enqueued == [Event(Sched(0, Daily), DAY), Event(Sched(0, Daily), 0)]
            && Sched(0, Daily) in s'.settings && s'.settings[Sched(0, Daily)] == Setting(0, Daily, 0)
            && PeriodOf(s', s'.enqueued[1]).end <= PeriodOf(s', s'.enqueued[0]).start
  {
    hide NextFor, PeriodFor, ValidRun, Run;
    var k, s := Sched(0, Daily), DailyAtMidnight();
    FirstDay(s.settings[k]);
    NoSteps(s);
    var now;
    steps, now := Extend(s, [], s, Start(1));
    steps, now := Extend(s, steps, now, Tick(DAY));
    steps, now := Extend(s, steps, now, Start(2));
    steps, now := Extend(s, steps, now, List(1, {k}));
    steps, now := Extend(s, steps, now, List(2, {k}));
    steps, now := Extend(s, steps, now, Reply(2, k));
    steps, now := Extend(s, steps, now, Reply(1, k));
  }

  lemma NoSteps(s: State)
    ensures ValidRun(s, []) && Run(s, []) == s
  {
  }
}

/** One pass of the runner over the database, as it runs. */
module Summaries {
  import opened Domain
  import opened Calendar
  import opened Periods
  import opened Schedule
  import Runs = SummaryRuns

  type User = Runs.User
  type Sched = Runs.Sched

  datatype Owner = Owner(status: UserStatus, zone: Zone)

  datatype Preference = Preference(id: nat, minute: int, enabled: bool, due: Instant)

  type Users = map<User, Owner>
  type Schedules = map<Sched, Preference>

  predicate IsDue(users: Users, schedules: Schedules, k: Sched, now: Instant) {
    && k in schedules && schedules[k].enabled && schedules[k].due <= now
    && k.user in users && users[k.user].status == UserActive
  }

  /** ORDER BY next_delivery_at, id. */
  predicate Before(schedules: Schedules, a: Sched, b: Sched) {
    || DueOf(schedules, a) < DueOf(schedules, b)
    || (DueOf(schedules, a) == DueOf(schedules, b) && IdOf(schedules, a) <= IdOf(schedules, b))
  }

  function IdOf(schedules: Schedules, k: Sched): nat {
    if k in schedules then schedules[k].id else 0
  }

  function DueOf(schedules: Schedules, k: Sched): Instant {
    if k in schedules then schedules[k].due else 0
  }

  /** Due schedules of active users, each once, earliest first. */
  ghost predicate Earliest(users: Users, schedules: Schedules, now: Instant, listed: seq<Sched>) {
    && (forall i :: 0 <= i < |listed| ==> IsDue(users, schedules, listed[i], now))
    && (forall i, j :: 0 <= i < j < |listed| ==>
          listed[i] != listed[j] && Before(schedules, listed[i], listed[j]))
  }

  /** `rest` are the due schedules not yet listed, none earlier than a listed one. */
  ghost predicate Partway(users: Users, schedules: Schedules, now: Instant, listed: seq<Sched>, rest: set<Sched>) {
    && Earliest(users, schedules, now, listed)
    && (forall k :: k in rest ==> IsDue(users, schedules, k, now))
    && (forall k :: IsDue(users, schedules, k, now) ==> k in rest || k in listed)
    && (forall k, i :: k in rest && 0 <= i < |listed| ==>
          listed[i] != k && Before(schedules, listed[i], k))
  }

  lemma Take(users: Users, schedules: Schedules, now: Instant, listed: seq<Sched>, rest: set<Sched>, k: Sched)
    requires Partway(users, schedules, now, listed, rest)
    requires k in rest && forall m :: m in rest ==> Before(schedules, k, m)
    ensures Partway(users, schedules, now, listed + [k], rest - {k})
  {
    hide IsDue, Before;
    var more := listed + [k];
    assert forall m :: m in listed ==> m in more;
    assert more[|listed|] == k;
  }

  /** What a listing is: enabled schedules of active users that are due at `now`, each once, in the order of their due
      instants and then their IDs, and all of them unless the limit is reached; without a limit it is a hundred. */
  ghost predicate Listing(users: Users, schedules: Schedules, now: Instant, limit: int, listed: seq<Sched>) {
    var most := if limit <= 0 then 100 else limit;
    && |listed| <= most
    && (forall i :: 0 <= i < |listed| ==>
          var k := listed[i];
          && k in schedules && schedules[k].enabled && schedules[k].due <= now
          && k.user in users && users[k.user].status == UserActive)
    && (forall i, j :: 0 <= i < j < |listed| ==>
          var p, q := schedules[listed[i]], schedules[listed[j]];
          listed[i] != listed[j] && (p.due < q.due || (p.due == q.due && p.id <= q.id)))
    && (forall k :: k in schedules && schedules[k].enabled && schedules[k].due <= now
                    && k.user in users && users[k.user].status == UserActive && k !in listed ==>
          && |listed| == most
          && forall i :: 0 <= i < |listed| ==>
               var p, q := schedules[listed[i]], schedules[k];
               p.due < q.due || (p.due == q.due && p.id <= q.id))
  }

  class SummaryDb {
    var users: Users
    var schedules: Schedules
    var outbox: set<Runs.Key>

    /** The state of the interleaving model agrees with the tables. */
    ghost predicate Matches(s: Runs.State)
      reads this
    {
      && s.rows == outbox
      && s.due == (map k | k in schedules :: schedules[k].due)
      && s.enabled == (set k | k in schedules && schedules[k].enabled)
    }

    /** The earliest due schedules of active users, at most `limit` of them, or a hundred without a limit. */
    method ListDueSummarySchedules(now: Instant, limit: int) returns (listed: seq<Sched>)
      ensures Listing(users, schedules, now, limit, listed) && Earliest(users, schedules, now, listed)
    {
      listed := [];
      var most := if limit <= 0 then 100 else limit;
      var rest := set k | k in schedules && IsDue(users, schedules, k, now);
      while rest != {} && |listed| < most
        invariant |listed| <= most && Partway(users, schedules, now, listed, rest)
        decreases |rest|
      {
        EarliestExists(schedules, rest);
        var k :| k in rest && forall m :: m in rest ==> Before(schedules, k, m);
        Take(users, schedules, now, listed, rest, k);
        listed := listed + [k];
        rest := rest - {k};
      }
    }

    /** The guarded update: it takes effect only if the schedule is still enabled and due when it was listed. */
    method AdvanceSummarySchedule(k: Sched, expectedDue: Instant, next: Instant) returns (won: bool)
      modifies this`schedules
      ensures won <==> k in old(schedules) && old(schedules)[k].enabled && old(schedules)[k].due == expectedDue
      ensures schedules == Advanced(old(schedules), k, expectedDue, next)
      ensures schedules == if won then old(schedules)[k := old(schedules)[k].(due := next)] else old(schedules)
    {
      won := k in schedules && schedules[k].enabled && schedules[k].due == expectedDue;
      if won { schedules := schedules[k := schedules[k].(due := next)]; }
    }

    /** One preference as it was listed. `fails` is a fault of the summary, its persistence or the reply. Unless it is
        skipped, its summary is in the outbox and the schedule has moved on; the pass is a run of the model. */
    method ProcessLocked(k: Sched, minute: int, expectedDue: Instant, now: Instant, fails: bool,
                         ghost s0: Runs.State, ghost before: seq<Runs.Step>, ghost s: Runs.State, ghost lane: Runs.Lane)
      returns (o: Outcome, ghost trace: seq<Runs.Step>, ghost s': Runs.State)
      requires k.user in users ==> k in s.settings && s.settings[k] == SettingOf(users[k.user], k, minute)
      requires Runs.ValidRun(s0, before) && s == Runs.Run(s0, before) && Matches(s)
      requires lane in s.lanes && s.lanes[lane].now == now && k in s.lanes[lane].batch
      requires s.lanes[lane].batch[k] == expectedDue
      modifies this`schedules, this`outbox
      ensures Runs.ValidRun(s0, trace) && s' == Runs.Run(s0, trace) && Matches(s')
      ensures lane in s'.lanes && s'.lanes[lane].now == now && s'.settings == s.settings
      ensures s.lanes[lane].batch - {k} == s'.lanes[lane].batch - {k}
      ensures o == if k.user !in users then Err(NotFound)
                   else if users[k.user].status != UserActive then Nil
                   else if !(0 <= minute < 24 * 60) || k.frequency == OtherFrequency then Err(Validation)
                   else if fails then Err(Transient) else Nil
      ensures o == Nil && users[k.user].status == UserActive ==>
                && outbox == old(outbox) + {SummaryKey(users[k.user], k, minute, now)}
                && schedules == Advanced(old(schedules), k, expectedDue, NextDue(users[k.user], k, minute, now))
      ensures o == Nil && users[k.user].status == UserActive ==>
                var zone := users[k.user].zone;
                var latest := LatestDelivery(now, zone, k.frequency, minute);
                var next := NextDelivery(now, zone, k.frequency, minute);
                && latest.Ok? && next.Ok?
                && outbox == old(outbox) + {Runs.Key(k, Reported(latest.at, zone, k.frequency).start)}
                && schedules == if k in old(schedules) && old(schedules)[k].enabled
                                   && old(schedules)[k].due == expectedDue
                                then old(schedules)[k := old(schedules)[k].(due := next.at)] else old(schedules)
      ensures !(o == Nil && users[k.user].status == UserActive) ==> outbox == old(outbox) && schedules == old(schedules)
    {
      hide Runs.ValidRun, Runs.Run, NextDelivery, LatestDelivery, Reported, Runs.NextFor, Runs.PeriodFor;
      trace, s' := before, s;
      if k.user !in users { return Err(NotFound), trace, s'; }
      var user := users[k.user];
      if user.status != UserActive { return Nil, trace, s'; }
      var scheduledFor := LatestDelivery(now, user.zone, k.frequency, minute);
      var next := NextDelivery(now, user.zone, k.frequency, minute);
      Computed(SettingOf(user, k, minute), now);
      if scheduledFor.Bad? || next.Bad? { return Err(Validation), trace, s'; }
      if fails { return Err(Transient), trace, s'; }
      var period := Reported(scheduledFor.at, user.zone, k.frequency);
      outbox := outbox + {Runs.Key(k, period.start)};
      trace, s' := Runs.Extend(s0, trace, s', Runs.Reply(lane, k));
      assert Matches(s');
      var won := AdvanceSummarySchedule(k, expectedDue, next.at);
      trace, s' := Runs.Extend(s0, trace, s', Runs.Advance(lane, k));
      o := Nil;
    }

    /** The clock reading and the listing. */
    method Begin(now: Instant, limit: int, ghost s0: Runs.State, ghost lane: Runs.Lane)
      returns (listed: seq<Sched>, ghost trace: seq<Runs.Step>, ghost s: Runs.State)
      requires Matches(s0) && s0.clock == now && lane !in s0.lanes
      ensures Listing(users, schedules, now, limit, listed) && Earliest(users, schedules, now, listed)
      ensures Runs.ValidRun(s0, trace) && s == Runs.Run(s0, trace) && Matches(s) && s.settings == s0.settings
      ensures lane in s.lanes && s.lanes[lane].now == now && Holds(s.lanes[lane].batch, schedules, listed)
    {
      hide Runs.ValidRun, Runs.Run, Runs.NextFor, Runs.PeriodFor, Runs.ValidSetting;
      listed := ListDueSummarySchedules(now, limit);
      Runs.NoSteps(s0);
      trace, s := Runs.Extend(s0, [], s0, Runs.Start(lane));
      trace, s := Runs.Extend(s0, trace, s, Runs.List(lane, set k | k in listed));
    }

    /** One pass: every listed schedule without a fault is reported and moves to its next delivery after now, whatever
        happens to the others; nothing else changes. */
    method RunOnce(now: Instant, limit: int, failing: set<Sched>, ghost s0: Runs.State, ghost lane: Runs.Lane)
      returns (listed: seq<Sched>, processed: nat, ghost trace: seq<Runs.Step>)
      requires Matches(s0) && s0.clock == now && lane !in s0.lanes && Configured(s0.settings, users, schedules)
      modifies this`schedules, this`outbox
      ensures Listing(users, old(schedules), now, limit, listed)
      ensures Runs.ValidRun(s0, trace) && Matches(Runs.Run(s0, trace))
      ensures schedules == Moved(users, old(schedules), now, listed, failing)
      ensures outbox == old(outbox) + Reports(users, old(schedules), now, listed, failing)
      ensures processed == CountActs(users, old(schedules), listed, failing)
    {
      hide Runs.ValidRun, Runs.Run, Runs.NextFor, Runs.PeriodFor, Moved, Reports, Matches, Holds,
        SummaryKey, NextDue, Advanced, DueOf, CountActs, Listing, NextDelivery, LatestDelivery, Reported;
      ghost var s;
      listed, trace, s := Begin(now, limit, s0, lane);
      NothingMoved(users, schedules, now, failing);
      NothingCounted(users, schedules, failing);
      assert listed[..0] == [] && listed[0..] == listed;
      processed := 0;
      for i := 0 to |listed|
        invariant Runs.ValidRun(s0, trace) && s == Runs.Run(s0, trace) && Matches(s)
        invariant lane in s.lanes && s.lanes[lane].now == now && s.settings == s0.settings
        invariant Holds(s.lanes[lane].batch, old(schedules), listed[i..])
        invariant schedules == Moved(users, old(schedules), now, listed[..i], failing)
        invariant outbox == old(outbox) + Reports(users, old(schedules), now, listed[..i], failing)
        invariant processed == CountActs(users, old(schedules), listed[..i], failing)
      {
        var k := listed[i];
        assert k !in listed[..i];
        assert listed[..i + 1] == listed[..i] + [k] && listed[i..] == [k] + listed[i + 1..];
        assert IsDue(users, old(schedules), k, now);
        MoveOne(users, old(schedules), now, listed[..i], k, failing);
        CountOne(users, old(schedules), listed[..i], k, failing);
        HoldsRest(s.lanes[lane].batch, old(schedules), k, listed[i + 1..]);
        var p := schedules[k];
        var o;
        o, trace, s := ProcessLocked(k, p.minute, p.due, now, k in failing, s0, trace, s, lane);
        HoldsWithout(s.lanes[lane].batch, old(schedules), k, listed[i + 1..]);
        if o == Nil { processed := processed + 1; }
      }
      assert listed[..|listed|] == listed;
    }
  }

  /** The settings the model runs with are those in the tables. */
  ghost predicate Configured(settings: map<Sched, Runs.Setting>, users: Users, schedules: Schedules) {
    forall k :: k in schedules && k.user in users ==>
                  k in settings && settings[k] == SettingOf(users[k.user], k, schedules[k].minute)
  }

  /** How many of a list of schedules are reported. */
  function CountActs(users: Users, schedules: Schedules, done: seq<Sched>, failing: set<Sched>): nat {
    if done == [] then 0 else
    CountActs(users, schedules, done[..|done| - 1], failing)
    + if Acts(users, schedules, done[|done| - 1], failing) then 1 else 0
  }

  lemma NothingCounted(users: Users, schedules: Schedules, failing: set<Sched>)
    ensures CountActs(users, schedules, [], failing) == 0
  {
  }

  lemma CountOne(users: Users, schedules: Schedules, done: seq<Sched>, k: Sched, failing: set<Sched>)
    ensures CountActs(users, schedules, done + [k], failing) ==
            CountActs(users, schedules, done, failing) + if Acts(users, schedules, k, failing) then 1 else 0
  {
    assert (done + [k])[..|done|] == done;
  }

  predicate Acts(users: Users, schedules: Schedules, k: Sched, failing: set<Sched>) {
    k !in failing && Valid(users, schedules, k)
  }

  /** The schedules after a pass over `done`. */
  ghost function Moved(users: Users, schedules: Schedules, now: Instant, done: seq<Sched>, failing: set<Sched>)
    : Schedules
  {
    map k | k in schedules ::
      if k in done && Acts(users, schedules, k, failing)
      then schedules[k].(due := NextDue(users[k.user], k, schedules[k].minute, now)) else schedules[k]
  }

  /** The summaries a pass over `done` puts into the outbox. */
  ghost function Reports(users: Users, schedules: Schedules, now: Instant, done: seq<Sched>, failing: set<Sched>)
    : set<Runs.Key>
  {
    set k | k in done && Acts(users, schedules, k, failing) :: SummaryKey(users[k.user], k, schedules[k].minute, now)
  }

  lemma NothingMoved(users: Users, schedules: Schedules, now: Instant, failing: set<Sched>)
    ensures Moved(users, schedules, now, [], failing) == schedules
    ensures Reports(users, schedules, now, [], failing) == {}
  {
  }

  lemma MoveOne(users: Users, schedules: Schedules, now: Instant, done: seq<Sched>, k: Sched, failing: set<Sched>)
    requires IsDue(users, schedules, k, now) && k !in done
    ensures var m, r := Moved(users, schedules, now, done, failing), Reports(users, schedules, now, done, failing);
            var m' := Moved(users, schedules, now, done + [k], failing);
            var r' := Reports(users, schedules, now, done + [k], failing);
            && k in m && m[k] == schedules[k]
            && (!Acts(users, schedules, k, failing) ==> m' == m && r' == r)
            && (Acts(users, schedules, k, failing) ==>
                  && m' == Advanced(m, k, m[k].due, NextDue(users[k.user], k, m[k].minute, now))
                  && r' == r + {SummaryKey(users[k.user], k, m[k].minute, now)})
  {
    hide SummaryKey, NextDue, Acts;
    var done' := done + [k];
    assert forall j :: j in done' <==> j in done || j == k;
  }

  /** The runner still holds what it listed for `rest`. */
  ghost predicate Holds(batch: map<Sched, Instant>, schedules: Schedules, rest: seq<Sched>) {
    forall j :: 0 <= j < |rest| ==> rest[j] in batch && batch[rest[j]] == DueOf(schedules, rest[j])
  }

  lemma HoldsRest(batch: map<Sched, Instant>, schedules: Schedules, k: Sched, rest: seq<Sched>)
    requires Holds(batch, schedules, [k] + rest) && k !in rest
    ensures k in batch && (k in schedules ==> batch[k] == schedules[k].due) && Holds(batch - {k}, schedules, rest)
  {
    assert ([k] + rest)[0] == k;
    assert forall j :: 0 <= j < |rest| ==> ([k] + rest)[j + 1] == rest[j];
  }

  lemma HoldsWithout(batch: map<Sched, Instant>, schedules: Schedules, k: Sched, rest: seq<Sched>)
    requires Holds(batch - {k}, schedules, rest)
    ensures Holds(batch, schedules, rest)
  {
  }

  function SettingOf(user: Owner, k: Sched, minute: int): Runs.Setting {
    Runs.Setting(user.zone, k.frequency, minute)
  }

  function SummaryKey(user: Owner, k: Sched, minute: int, now: Instant): Runs.Key
    requires Runs.ValidSetting(SettingOf(user, k, minute))
  {
    Runs.Key(k, Runs.PeriodFor(SettingOf(user, k, minute), now).start)
  }

  function NextDue(user: Owner, k: Sched, minute: int, now: Instant): Instant
    requires Runs.ValidSetting(SettingOf(user, k, minute))
  {
    Runs.NextFor(SettingOf(user, k, minute), now)
  }

  predicate Valid(users: Users, schedules: Schedules, k: Sched) {
    k in schedules && k.user in users && Runs.ValidSetting(SettingOf(users[k.user], k, schedules[k].minute))
  }

  /** The guarded update as a value. */
  function Advanced(schedules: Schedules, k: Sched, expectedDue: Instant, next: Instant): Schedules {
    if k in schedules && schedules[k].enabled && schedules[k].due == expectedDue
    then schedules[k := schedules[k].(due := next)] else schedules
  }

  lemma Computed(c: Runs.Setting, now: Instant)
    ensures var latest := LatestDelivery(now, c.zone, c.frequency, c.minute);
            var next := NextDelivery(now, c.zone, c.frequency, c.minute);
            && (latest.Ok? <==> Runs.ValidSetting(c)) && (next.Ok? <==> Runs.ValidSetting(c))
            && (Runs.ValidSetting(c) ==>
                  next.at == Runs.NextFor(c, now) && Reported(latest.at, c.zone, c.frequency) == Runs.PeriodFor(c, now))
  {
    hide NextDelivery, LatestDelivery, Reported;
    DeliveriesBracketNow(now, c.zone, c.frequency, c.minute);
  }

  lemma {:induction false} EarliestExists(schedules: Schedules, rest: set<Sched>)
    requires rest != {}
    ensures exists k :: k in rest && forall m :: m in rest ==> Before(schedules, k, m)
  {
    var k :| k in rest;
    var others := rest - {k};
    if others == {} {
      assert rest == {k} + others == {k};
    } else {
      EarliestExists(schedules, others);
      var e :| e in others && forall m :: m in others ==> Before(schedules, e, m);
      var best := if Before(schedules, k, e) then k else e;
      assert best in rest;
      forall m | m in rest ensures Before(schedules, best, m) {
        if m != k { assert m in others; }
      }
    }
  }
}
