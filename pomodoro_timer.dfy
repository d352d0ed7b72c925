/**
 * The Pomodoro timer dialog: a once-a-second countdown through an uptime
 * phase and a downtime phase per repetition, which records one session when
 * the last downtime runs out.
 */
module PomodoroTimer {
  import opened Outcomes
  import opened Database
  import opened Auth

  datatype Phase = Uptime | Downtime

  /** The component fields the interval callback reads and writes. */
  datatype Countdown = Countdown(phase: Phase, repetition: int, remaining: int, elapsed: int, running: bool)

  /** The bounds the alarm form enforces: uptime 1..120 and downtime 1..60 minutes, 1..20 repetitions. */
  predicate WithinBounds(a: Alarm) {
    1 <= a.uptime <= 120 && 1 <= a.downtime <= 60 && 1 <= a.repetitions <= 20
  }

  function PhaseSeconds(p: Phase, a: Alarm): int {
    if p == Uptime then a.uptime * 60 else a.downtime * 60
  }

  /** Seconds counted down in one repetition. */
  function CycleSeconds(a: Alarm): int { (a.uptime + a.downtime) * 60 }

  /** What `startTimer` sets; `totalDuration` is left as it was. */
  function Started(a: Alarm, elapsed: int): (c: Countdown)
    ensures c.elapsed == elapsed && Progress(c, a) == 0
    ensures WithinBounds(a) ==> Live(c, a)
  {
    Countdown(Uptime, 1, a.uptime * 60, elapsed, true)
  }

  /** `nextPhase`: uptime to downtime, downtime to the next repetition or, past the last, stop. */
  function PhaseAdvanced(c: Countdown, a: Alarm): (d: Countdown)
    ensures d.elapsed == c.elapsed
    ensures d.running ==> d.remaining == PhaseSeconds(d.phase, a)
    ensures d.repetition == c.repetition + (if c.phase == Uptime then 0 else 1)
    ensures c.running && !d.running <==> c.running && c.phase.Downtime? && c.repetition + 1 > a.repetitions
  {
    if c.phase == Uptime then c.(phase := Downtime, remaining := a.downtime * 60)
    else if c.repetition + 1 > a.repetitions then c.(repetition := c.repetition + 1, running := false)
    else c.(phase := Uptime, repetition := c.repetition + 1, remaining := a.uptime * 60)
  }

  /** The interval callback: count one second down, or switch phase once nothing remains. */
  function Ticked(c: Countdown, a: Alarm): (d: Countdown)
    ensures c.remaining > 0 ==>
      d.remaining == c.remaining - 1 && d.elapsed == c.elapsed + 1
      && d.phase == c.phase && d.repetition == c.repetition && d.running == c.running
    ensures c.remaining <= 0 ==> d.elapsed == c.elapsed
    ensures c.elapsed <= d.elapsed && c.repetition <= d.repetition
  {
    if c.remaining > 0 then c.(remaining := c.remaining - 1, elapsed := c.elapsed + 1)
    else PhaseAdvanced(c, a)
  }

  /** `n` callbacks, the run stopping the interval once it is no longer running. */
  function Run(c: Countdown, a: Alarm, n: nat): (d: Countdown)
    ensures c.elapsed <= d.elapsed <= c.elapsed + n
    ensures c.repetition <= d.repetition
    ensures !c.running ==> d == c
    decreases n
  {
    if n == 0 || !c.running then c else Run(Ticked(c, a), a, n - 1)
  }

  /** A running countdown within its repetition count and its phase's length. */
  predicate Live(c: Countdown, a: Alarm) {
    c.running && 1 <= c.repetition <= a.repetitions && 0 <= c.remaining <= PhaseSeconds(c.phase, a)
  }

  /** Seconds of the run already counted down in the state `c`. */
  function Progress(c: Countdown, a: Alarm): int {
    (c.repetition - 1) * CycleSeconds(a)
      + (if c.phase == Uptime then a.uptime * 60 - c.remaining else CycleSeconds(a) - c.remaining)
  }

  /** Callbacks in a full run: each phase counts down its seconds and then spends one tick switching. */
  function TicksPerRun(a: Alarm): int { a.repetitions * (CycleSeconds(a) + 2) }

  lemma ProgressBounds(c: Countdown, a: Alarm)
    requires WithinBounds(a) && Live(c, a)
    ensures 0 <= Progress(c, a) <= a.repetitions * CycleSeconds(a)
  {
    var r, R, C := c.repetition, a.repetitions, CycleSeconds(a);
    var done := (r - 1) * C;
    var inPhase := if c.phase == Uptime then a.uptime * 60 - c.remaining else C - c.remaining;
    assert Progress(c, a) == done + inPhase;
    assert 0 <= inPhase <= C;
    MulMono(r - 1, R - 1, C);
    MulPred(R, C);
  }

  lemma MulPred(x: int, k: int)
    ensures (x - 1) * k + k == x * k
  {
  }

  lemma MulMono(x: int, y: int, k: int)
    requires 0 <= x <= y && 0 <= k
    ensures 0 <= x * k <= y * k
  {
  }

  /**
   * One callback keeps a running countdown within its bounds and keeps
   * `elapsed` equal to the seconds counted down since the run started;
   * the callback that stops the run leaves exactly a full run counted.
   */
  lemma TickKeepsProgress(c: Countdown, a: Alarm, base: int)
    requires WithinBounds(a) && Live(c, a) && c.elapsed == base + Progress(c, a)
    ensures var d := Ticked(c, a);
      && (d.running ==> Live(d, a) && d.elapsed == base + Progress(d, a))
      && (!d.running ==>
            && d.elapsed == base + a.repetitions * CycleSeconds(a)
            && d.repetition == a.repetitions + 1 && d.phase == Downtime && d.remaining == 0)
  {
    var r, C := c.repetition, CycleSeconds(a);
    if c.remaining == 0 && c.phase == Downtime {
      assert (r - 1) * C + C == r * C;
    }
  }

  lemma {:induction false} RunAdd(c: Countdown, a: Alarm, m: nat, n: nat)
    ensures Run(c, a, m + n) == Run(Run(c, a, m), a, n)
    decreases m
  {
    if m > 0 && c.running {
      RunAdd(Ticked(c, a), a, m - 1, n);
    }
  }

  /** Counting down `k` seconds of a phase takes `k` callbacks, each adding one second. */
  lemma {:induction false} CountDown(c: Countdown, a: Alarm, k: nat)
    requires c.running && k <= c.remaining
    ensures Run(c, a, k) == c.(remaining := c.remaining - k, elapsed := c.elapsed + k)
    decreases k
  {
    if k > 0 {
      CountDown(Ticked(c, a), a, k - 1);
    }
  }

  /** A running state stays running at every earlier tick count. */
  lemma {:induction false} RunningBefore(c: Countdown, a: Alarm, m: nat, n: nat)
    requires m <= n && Run(c, a, n).running
    ensures Run(c, a, m).running
    decreases m
  {
    if m > 0 {
      RunningBefore(Ticked(c, a), a, m - 1, n - 1);
    }
  }

  /** An uptime phase and its downtime, from the start of repetition `r` to the last second of its downtime. */
  lemma OneRepetition(a: Alarm, r: int, e: int)
    requires WithinBounds(a) && 1 <= r <= a.repetitions
    ensures Run(Countdown(Uptime, r, a.uptime * 60, e, true), a, CycleSeconds(a) + 1)
         == Countdown(Downtime, r, 0, e + CycleSeconds(a), true)
  {
    var U, D := a.uptime * 60, a.downtime * 60;
    var up := Countdown(Uptime, r, U, e, true);
    var upDone := Countdown(Uptime, r, 0, e + U, true);
    var down := Countdown(Downtime, r, D, e + U, true);
    RunAdd(up, a, U, 1 + D);
    CountDown(up, a, U);
    RunAdd(upDone, a, 1, D);
    assert Run(upDone, a, 1) == down;
    CountDown(down, a, D);
  }

  /** Callbacks from the start of repetition `r` to the last second of the last downtime. */
  function StepsFrom(a: Alarm, r: int): int {
    (a.repetitions - r) * (CycleSeconds(a) + 2) + CycleSeconds(a) + 1
  }

  /** Seconds counted from the start of repetition `r` to the end of the last downtime. */
  function CountedFrom(a: Alarm, r: int): int {
    (a.repetitions - r + 1) * CycleSeconds(a)
  }

  lemma StepsRecurrence(a: Alarm, r: int)
    ensures StepsFrom(a, r) == CycleSeconds(a) + 2 + StepsFrom(a, r + 1)
    ensures CountedFrom(a, r) == CycleSeconds(a) + CountedFrom(a, r + 1)
    ensures StepsFrom(a, a.repetitions) == CycleSeconds(a) + 1
    ensures CountedFrom(a, a.repetitions) == CycleSeconds(a)
  {
  }

  /** From the start of repetition `r`, the run reaches the last second of the last downtime, still running. */
  lemma {:induction false} Repetitions(a: Alarm, r: int, e: int)
    requires WithinBounds(a) && 1 <= r <= a.repetitions
    ensures StepsFrom(a, r) >= 0
    ensures Run(Countdown(Uptime, r, a.uptime * 60, e, true), a, StepsFrom(a, r))
         == Countdown(Downtime, a.repetitions, 0, e + CountedFrom(a, r), true)
    decreases a.repetitions - r
  {
    StepsRecurrence(a, r);
    if r == a.repetitions {
      OneRepetition(a, r, e);
    } else {
      Repetitions(a, r + 1, e + CycleSeconds(a));
      RunAdd(Countdown(Uptime, r, a.uptime * 60, e, true), a, CycleSeconds(a) + 2, StepsFrom(a, r + 1));
      NextRepetition(a, r, e);
    }
  }

  /** A repetition that is not the last one hands over to the next after `CycleSeconds(a) + 2` callbacks. */
  lemma NextRepetition(a: Alarm, r: int, e: int)
    requires WithinBounds(a) && 1 <= r < a.repetitions
    ensures Run(Countdown(Uptime, r, a.uptime * 60, e, true), a, CycleSeconds(a) + 2)
         == Countdown(Uptime, r + 1, a.uptime * 60, e + CycleSeconds(a), true)
  {
    var up := Countdown(Uptime, r, a.uptime * 60, e, true);
    var down := Countdown(Downtime, r, 0, e + CycleSeconds(a), true);
    RunAdd(up, a, CycleSeconds(a) + 1, 1);
    OneRepetition(a, r, e);
    assert Run(down, a, 1) == Ticked(down, a);
  }

  /**
   * A run started with `totalDuration == t0` stops after exactly
   * `TicksPerRun(a)` callbacks, having added `repetitions * (uptime + downtime) * 60`
   * seconds, with the repetition counter one past the last and the phase
   * left at downtime; it is still running at every earlier tick.
   */
  lemma FullRun(a: Alarm, t0: int)
    requires WithinBounds(a)
    ensures Run(Started(a, t0), a, TicksPerRun(a))
         == Countdown(Downtime, a.repetitions + 1, 0, t0 + a.repetitions * CycleSeconds(a), false)
    ensures forall n: nat :: n < TicksPerRun(a) ==> Run(Started(a, t0), a, n).running
  {
    var C, R := CycleSeconds(a), a.repetitions;
    var last := StepsFrom(a, 1);
    assert last == TicksPerRun(a) - 1 && CountedFrom(a, 1) == R * C;
    Repetitions(a, 1, t0);
    var final := Countdown(Downtime, R, 0, t0 + R * C, true);
    assert Run(Started(a, t0), a, last) == final;
    RunAdd(Started(a, t0), a, last, 1);
    assert Run(final, a, 1) == Ticked(final, a);
    forall n: nat | n < TicksPerRun(a) ensures Run(Started(a, t0), a, n).running {
      RunningBefore(Started(a, t0), a, n, last);
    }
  }

  /** The minutes a fresh full run records: `repetitions * (uptime + downtime)`. */
  lemma RecordedMinutes(a: Alarm, t0: int)
    requires WithinBounds(a) && 0 <= t0
    ensures (t0 + a.repetitions * CycleSeconds(a)) / 60 == t0 / 60 + a.repetitions * (a.uptime + a.downtime)
    ensures t0 == 0 ==> (t0 + a.repetitions * CycleSeconds(a)) / 60 == a.repetitions * (a.uptime + a.downtime)
  {
    var k := a.repetitions * (a.uptime + a.downtime);
    assert a.repetitions * CycleSeconds(a) == 60 * k;
    DivShift(t0, k);
  }

  lemma DivShift(x: int, k: int)
    requires 0 <= x
    ensures (x + 60 * k) / 60 == x / 60 + k
  {
  }

  /** Both sample alarms are two-hour runs, matching the 120 minutes of every seeded session. */
  lemma SampleAlarmsRecordTwoHours(userId: nat, firstId: nat, now: Timestamp)
    ensures forall a :: a in SampleAlarms(userId, firstId, now) ==>
      WithinBounds(a) && (a.repetitions * CycleSeconds(a)) / 60 == 120
  {
  }

  // `formattedTime`: `mm:ss` from `timeRemaining`.

  function DigitChar(d: nat): char
    requires d < 10
  {
    ('0' as int + d) as char
  }

  function DigitValue(c: char): int { c as int - '0' as int }

  predicate IsDigits(s: string) {
    forall i :: 0 <= i < |s| ==> '0' <= s[i] <= '9'
  }

  /** `n.toString()` for a non-negative integer. */
  function Decimal(n: nat): (s: string)
    ensures 1 <= |s| && IsDigits(s)
    ensures n < 10 ==> |s| == 1
    ensures 10 <= n < 100 ==> |s| == 2
    decreases n
  {
    if n < 10 then [DigitChar(n)] else Decimal(n / 10) + [DigitChar(n % 10)]
  }

  /** Reads a string of digits as a number; leading zeros are allowed. */
  function DecimalValue(s: string): int
    decreases |s|
  {
    if s == [] then 0 else DecimalValue(s[..|s| - 1]) * 10 + DigitValue(s[|s| - 1])
  }

  lemma {:induction false} DecimalRoundTrip(n: nat)
    ensures DecimalValue(Decimal(n)) == n
    decreases n
  {
    if n >= 10 {
      var s := Decimal(n);
      assert s[..|s| - 1] == Decimal(n / 10);
      DecimalRoundTrip(n / 10);
    }
  }

  lemma {:induction false} LeadingZero(s: string)
    ensures DecimalValue("0" + s) == DecimalValue(s)
    decreases |s|
  {
    if s != [] {
      var t := "0" + s;
      assert t[..|t| - 1] == "0" + s[..|s| - 1];
      LeadingZero(s[..|s| - 1]);
    } else {
      assert "0" + s == "0";
    }
  }

  /** `s.padStart(2, '0')`. */
  function PadStart2(s: string): (r: string)
    ensures |r| == if |s| >= 2 then |s| else 2
    ensures IsDigits(s) ==> IsDigits(r) && DecimalValue(r) == DecimalValue(s)
    decreases 2 - |s|
  {
    if |s| >= 2 then s
    else
      LeadingZero(s);
      PadStart2("0" + s)
  }

  /** The `formattedTime` getter on a given `timeRemaining`. */
  function MinutesSeconds(t: nat): (s: string)
    ensures |s| >= 5 && s[|s| - 3] == ':'
    ensures t < 100 * 60 ==> |s| == 5
  {
    PadStart2(Decimal(t / 60)) + ":" + PadStart2(Decimal(t % 60))
  }

  /** Reads `m:ss` back as seconds. */
  function ParseTime(s: string): int
    requires |s| >= 3
  {
    DecimalValue(s[..|s| - 3]) * 60 + DecimalValue(s[|s| - 2..])
  }

  /** `mm:ss` splits back into its two fields at the third character from the end. */
  lemma ColonSplit(mm: string, ss: string)
    requires |ss| == 2
    ensures var s := mm + ":" + ss;
      && |s| == |mm| + 3 && s[..|s| - 3] == mm && s[|s| - 2..] == ss
      && ParseTime(s) == DecimalValue(mm) * 60 + DecimalValue(ss)
  {
    var s := mm + ":" + ss;
    assert s[..|mm|] == mm;
    assert s[|mm| + 1..] == ss;
  }

  /** The two fields hold `t / 60` and `t % 60`, digits only, so reading them back gives `t`. */
  lemma MinutesSecondsRoundTrip(t: nat)
    ensures var s := MinutesSeconds(t);
      && IsDigits(s[..|s| - 3]) && IsDigits(s[|s| - 2..])
      && DecimalValue(s[..|s| - 3]) == t / 60
      && DecimalValue(s[|s| - 2..]) == t % 60 < 60
      && ParseTime(s) == t
  {
    var m, sec := t / 60, t % 60;
    DivMod60(t);
    var dm, ds := Decimal(m), Decimal(sec);
    DecimalRoundTrip(m);
    DecimalRoundTrip(sec);
    var mm, ss := PadStart2(dm), PadStart2(ds);
    assert |ss| == 2 && DecimalValue(mm) == m && DecimalValue(ss) == sec;
    ColonSplit(mm, ss);
  }

  lemma DivMod60(t: nat)
    ensures t == (t / 60) * 60 + t % 60 && 0 <= t % 60 < 60
  {
  }

  /**
   * The timer dialog component. `ticking` stands for the scheduled
   * `setInterval` callback, `closedWith` for the value the dialog was closed
   * with, and the wall clock only enters as the `now` given to `Tick`.
   */
  class PomodoroTimerComponent {
    const alarm: Alarm
    const db: DatabaseService
    const auth: AuthService
    var currentPhase: Phase
    var currentRepetition: int
    var timeRemaining: int
    var totalDuration: int
    var isRunning: bool
    var isPaused: bool
    var ticking: bool
    /** `None` while the dialog is open; once closed, the component is destroyed and no handler runs again. */
    var closedWith: Option<bool>
    /** `totalDuration` when the current run was started. */
    ghost var runStart: int

    function State(): Countdown
      reads this
    {
      Countdown(currentPhase, currentRepetition, timeRemaining, totalDuration, isRunning)
    }

    ghost predicate Valid()
      reads this, db
    {
      && db.Valid() && WithinBounds(alarm)
      && 0 <= runStart <= totalDuration
      && 1 <= currentRepetition <= alarm.repetitions + 1 && 0 <= timeRemaining
      && (isRunning ==> Live(State(), alarm) && totalDuration == runStart + Progress(State(), alarm))
      && (ticking ==> isRunning && !isPaused && closedWith == None)
      && (isPaused ==> isRunning)
    }

    /** Opening the dialog: the component is built and `ngOnInit` starts the timer. */
    constructor (alarm: Alarm, db: DatabaseService, auth: AuthService)
      requires db.Valid() && WithinBounds(alarm)
      ensures Valid() && this.alarm == alarm && this.db == db && this.auth == auth
      ensures State() == Started(alarm, 0) && runStart == 0
      ensures ticking && !isPaused && closedWith == None
    {
      this.alarm := alarm;
      this.db := db;
      this.auth := auth;
      currentPhase, currentRepetition, timeRemaining, totalDuration := Uptime, 1, 0, 0;
      isRunning, isPaused, ticking, closedWith := false, false, false, None;
      runStart := 0;
      new;
      StartTimer();
    }

    /** The `formattedTime` getter. */
    function FormattedTime(): (s: string)
      reads this
      requires 0 <= timeRemaining
      ensures |s| >= 5 && ParseTime(s) == timeRemaining
    {
      MinutesSecondsRoundTrip(timeRemaining);
      MinutesSeconds(timeRemaining)
    }

    /** Both callers (`ngOnInit`, `continueTimer` when stopped) have no interval scheduled. */
    method StartTimer()
      requires Valid() && !ticking && closedWith == None
      modifies this
      ensures Valid()
      ensures State() == Started(alarm, old(totalDuration))
      ensures ticking && !isPaused && runStart == old(totalDuration)
      ensures closedWith == old(closedWith)
    {
      currentPhase := Uptime;
      currentRepetition := 1;
      timeRemaining := alarm.uptime * 60;
      isRunning := true;
      isPaused := false;
      runStart := totalDuration;
      ticking := true;
      assert Progress(State(), alarm) == 0;
    }

    /** One firing of the interval callback, if one is scheduled. */
    method Tick(now: Timestamp)
      requires Valid()
      modifies this, db
      ensures Valid()
      ensures State() == if old(ticking) then Ticked(old(State()), alarm) else old(State())
      ensures isPaused == old(isPaused) && runStart == old(runStart)
      ensures ticking == (old(ticking) && isRunning)
      ensures old(isRunning) && !isRunning ==>
        && totalDuration == runStart + alarm.repetitions * CycleSeconds(alarm)
        && totalDuration / 60 == runStart / 60 + alarm.repetitions * (alarm.uptime + alarm.downtime)
        && currentRepetition == alarm.repetitions + 1 && currentPhase == Downtime
        && closedWith == Some(true)
        && db.sessions == old(db.sessions) + Recorded(now, old(db.nextSessionId))
      ensures !(old(isRunning) && !isRunning) ==> db.sessions == old(db.sessions) && closedWith == old(closedWith)
      ensures old(closedWith).Some? ==> State() == old(State()) && db.sessions == old(db.sessions) && closedWith == old(closedWith)
      ensures db.nextSessionId == old(db.nextSessionId) + |db.sessions| - |old(db.sessions)|
      ensures db.users == old(db.users) && db.alarms == old(db.alarms)
      ensures db.nextUserId == old(db.nextUserId) && db.nextAlarmId == old(db.nextAlarmId)
    {
      if !ticking {
        return;
      }
      TickKeepsProgress(State(), alarm, runStart);
      if timeRemaining > 0 {
        timeRemaining := timeRemaining - 1;
        totalDuration := totalDuration + 1;
      } else {
        NextPhase(now);
      }
    }

    /** The session `finishSession` stores: only for a logged-in user, and only if the store is open. */
    function Recorded(now: Timestamp, id: nat): (s: seq<Session>)
      reads this, auth, db
      ensures |s| <= 1
      ensures |s| == 1 <==> auth.currentUser.Some? && db.ready
    {
      if auth.currentUser.Some? && db.ready then
        [StoredSession(NewSession(alarm.id, auth.currentUser.value.id, now, totalDuration / 60), id)]
      else []
    }

    method NextPhase(now: Timestamp)
      requires Valid() && ticking && timeRemaining == 0
      modifies this, db
      ensures Valid()
      ensures State() == PhaseAdvanced(old(State()), alarm)
      ensures isPaused == old(isPaused) && runStart == old(runStart)
      ensures ticking == isRunning
      ensures !isRunning ==>
        && totalDuration == runStart + alarm.repetitions * CycleSeconds(alarm)
        && totalDuration / 60 == runStart / 60 + alarm.repetitions * (alarm.uptime + alarm.downtime)
        && closedWith == Some(true)
        && db.sessions == old(db.sessions) + Recorded(now, old(db.nextSessionId))
      ensures isRunning ==> db.sessions == old(db.sessions) && closedWith == old(closedWith)
      ensures db.nextSessionId == old(db.nextSessionId) + |db.sessions| - |old(db.sessions)|
      ensures db.users == old(db.users) && db.alarms == old(db.alarms)
      ensures db.nextUserId == old(db.nextUserId) && db.nextAlarmId == old(db.nextAlarmId)
    {
      TickKeepsProgress(State(), alarm, runStart);
      if currentPhase == Uptime {
        currentPhase := Downtime;
        timeRemaining := alarm.downtime * 60;
      } else {
        currentRepetition := currentRepetition + 1;
        if currentRepetition > alarm.repetitions {
          RecordedMinutes(alarm, runStart);
          FinishSession(now);
          return;
        }
        currentPhase := Uptime;
        timeRemaining := alarm.uptime * 60;
      }
    }

    /**
     * Stops the interval and the run, stores the session when someone is
     * logged in (a store error is swallowed), and closes the dialog with
     * `true` (after a delay the model does not keep).
     */
    method FinishSession(now: Timestamp)
      requires db.Valid() && 0 <= totalDuration
      modifies this, db
      ensures db.Valid()
      ensures !isRunning && !ticking && closedWith == Some(true)
      ensures currentPhase == old(currentPhase) && currentRepetition == old(currentRepetition)
      ensures timeRemaining == old(timeRemaining) && totalDuration == old(totalDuration)
      ensures isPaused == old(isPaused) && runStart == old(runStart)
      ensures db.sessions == old(db.sessions) + Recorded(now, old(db.nextSessionId))
      ensures db.nextSessionId == old(db.nextSessionId) + |Recorded(now, old(db.nextSessionId))|
      ensures db.users == old(db.users) && db.alarms == old(db.alarms)
      ensures db.nextUserId == old(db.nextUserId) && db.nextAlarmId == old(db.nextAlarmId)
    {
      ticking := false;
      isRunning := false;
      var user := auth.currentUser;
      if user.Some? {
        var _ := db.CreateSession(NewSession(alarm.id, user.value.id, now, totalDuration / 60));
      }
      closedWith := Some(true);
    }

    method PauseTimer()
      requires Valid() && closedWith == None
      modifies this
      ensures Valid()
      ensures State() == old(State()) && runStart == old(runStart) && closedWith == old(closedWith)
      ensures old(isRunning) ==> isPaused && !ticking
      ensures !old(isRunning) ==> isPaused == old(isPaused) && ticking == old(ticking)
    {
      if isRunning {
        ticking := false;
        isPaused := true;
      }
    }

    method ResumeTimer()
      requires Valid() && closedWith == None
      modifies this
      ensures Valid()
      ensures State() == old(State()) && runStart == old(runStart) && closedWith == old(closedWith)
      ensures old(isPaused) ==> !isPaused && ticking
      ensures !old(isPaused) ==> isPaused == old(isPaused) && ticking == old(ticking)
    {
      if isPaused {
        ticking := true;
        isPaused := false;
      }
    }

    /** Resumes a paused run, restarts a stopped one, and leaves a running one alone. */
    method ContinueTimer()
      requires Valid() && closedWith == None
      modifies this
      ensures Valid() && closedWith == None
      ensures old(isPaused) ==> State() == old(State()) && ticking && !isPaused
      ensures !old(isPaused) && !old(isRunning) ==>
        State() == Started(alarm, old(totalDuration)) && ticking && runStart == old(totalDuration)
      ensures !old(isPaused) && old(isRunning) ==>
        State() == old(State()) && ticking == old(ticking) && !isPaused && runStart == old(runStart)
    {
      if isPaused {
        ResumeTimer();
      } else if !isRunning {
        StartTimer();
      }
    }

    /** Cancels the dialog: the interval stops and no session is stored. */
    method CloseDialog()
      requires Valid() && closedWith == None
      modifies this
      ensures Valid()
      ensures State() == old(State()) && runStart == old(runStart) && isPaused == old(isPaused)
      ensures !ticking && closedWith == Some(false)
    {
      ticking := false;
      closedWith := Some(false);
    }
  }
}
