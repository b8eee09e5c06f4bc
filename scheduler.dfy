/**
  The bulk attendance generator of nanowatch.py (`main`, menu choice 3). It
  walks the days from a start date to an end date inclusive; a Thursday, a
  Friday, a public holiday or a day the user listed as an exception is
  skipped with a reason; every other day gets a random entrance minute in
  09:00..10:45, a random exit minute at least nine hours later and no later
  than 20:00, and two attendance submissions, entrance then exit, each of
  which may fail without stopping the walk.

  Days are proleptic Gregorian ordinals as Python's `date.toordinal` numbers
  them (1 is Monday 0001-01-01). The holiday calendar, the exception list,
  the text `str(date)` of a day, the random draws and the service's replies
  are inputs.
 */
module Scheduler {
  import opened Http
  import opened Clock
  import opened Client

  /** A date, as its ordinal. */
  type Day = int

  /** `date.weekday()`: Monday is 0, Sunday is 6. */
  function Weekday(d: Day): (w: int)
    ensures 0 <= w < 7
  {
    (d + 6) % 7
  }

  /** Ordinal 1 is a Monday, and each day moves the weekday on by one, Sunday wrapping to Monday. */
  lemma {:induction false} WeekdayAdvances(d: Day)
    ensures Weekday(1) == 0
    ensures Weekday(d + 1) == (Weekday(d) + 1) % 7
    ensures Weekday(d + 7) == Weekday(d)
  {
  }

  const Thursday: int := 3
  const Friday: int := 4

  /** The Iranian weekend. */
  predicate IsWeekend(d: Day) {
    Weekday(d) == Thursday || Weekday(d) == Friday
  }

  /**
    The holiday calendar (day to label), the exception days and the
    `str(date)` text of each day.
   */
  datatype Calendar = Calendar(holidays: map<Day, string>, exceptions: set<Day>, dateText: Day -> string)

  /** The skip condition: the weekend, a holiday or an exception. */
  predicate IsOffDay(d: Day, cal: Calendar)
    ensures cal.holidays == map[] && cal.exceptions == {} ==> (IsOffDay(d, cal) <==> IsWeekend(d))
    ensures d in cal.exceptions ==> IsOffDay(d, cal)
  {
    IsWeekend(d) || d in cal.holidays || d in cal.exceptions
  }

  const ExceptionReason: string := "Exception (Off Work)"
  const DefaultReason: string := "Weekend/Exception"

  /**
    The reason printed for a skipped day: an exception beats the holiday
    label, which beats the default.
   */
  function SkipReason(d: Day, cal: Calendar): (reason: string)
    ensures d in cal.exceptions ==> reason == ExceptionReason
    ensures d !in cal.exceptions && d in cal.holidays ==> reason == cal.holidays[d]
    ensures d !in cal.exceptions && d !in cal.holidays ==> reason == DefaultReason
  {
    var holidayLabel := if d in cal.holidays then cal.holidays[d] else DefaultReason;
    if d in cal.exceptions then ExceptionReason else holidayLabel
  }

  /**
    `random.randint(lo, hi)`, with the randomness supplied as a roll: some
    value of the closed interval.
   */
  function RandInt(lo: int, hi: int, roll: nat): (v: int)
    requires lo <= hi
    ensures lo <= v <= hi
  {
    lo + roll % (hi - lo + 1)
  }

  /** Every value of the interval is the draw of some roll, so no outcome of randint is lost. */
  lemma {:induction false} RandIntOnto(lo: int, hi: int, v: int)
    requires lo <= v <= hi
    ensures exists roll: nat :: RandInt(lo, hi, roll) == v
  {
    assert RandInt(lo, hi, v - lo) == v;
  }

  const MorningStart: int := 9 * 60
  const MorningEnd: int := 10 * 60 + 45
  /** Nine hours. */
  const MinShift: int := 540
  const AfternoonMax: int := 20 * 60

  /** The rolls behind the two randint calls of each day. */
  datatype Draws = Draws(morning: Day -> nat, afternoon: Day -> nat)

  datatype Leg = Entrance | Exit

  /**
    Everything a run depends on besides its date range; `status` is the
    HTTP status the service answers to the submission of one leg of one day.
   */
  datatype Env = Env(cal: Calendar, draws: Draws, status: (Day, Leg) -> int)

  /**
    One call of update_user_request: the record passed to it and the outcome
    (a failure is caught and the loop goes on).
   */
  datatype Attempt = Attempt(request: UserRequest, result: Result<(), ClientError>)

  /** What happens to one day of the range. */
  datatype DayOutcome =
    | Skipped(day: Day, reason: string)
    | Ungenerable(day: Day)
    | Worked(day: Day, entrance: int, exit: int, entranceAttempt: Attempt, exitAttempt: Attempt)

  const AttendanceType: int := 2
  const EntranceExitSubType: int := 0
  /** "entrance" */
  const EntranceLabel: string := "ورود"
  /** "exit" */
  const ExitLabel: string := "خروج"

  /** The record submitted for one generated timestamp. */
  function Attendance(stamp: string, description: string): UserRequest {
    UserRequest(AttendanceType, "", stamp, stamp, EntranceExitSubType, description)
  }

  /** The body of one pass of the loop, for day d. */
  function ProcessDay(d: Day, env: Env): (o: DayOutcome)
    ensures o.day == d
  {
    var cal := env.cal;
    if IsOffDay(d, cal) then Skipped(d, SkipReason(d, cal))
    else
      var morning := RandInt(MorningStart, MorningEnd, env.draws.morning(d));
      var morningStamp := Timestamp(cal.dateText(d), morning);
      var afternoonLower := morning + MinShift;
      if afternoonLower > AfternoonMax then Ungenerable(d)
      else
        var afternoon := RandInt(afternoonLower, AfternoonMax, env.draws.afternoon(d));
        var afternoonStamp := Timestamp(cal.dateText(d), afternoon);
        Worked(d, morning, afternoon,
          Attempt(Attendance(morningStamp, EntranceLabel), UpdateResult(env.status(d, Entrance))),
          Attempt(Attendance(afternoonStamp, ExitLabel), UpdateResult(env.status(d, Exit))))
  }

  /** The number of days from start to end inclusive. */
  function RangeLength(start: Day, end: Day): nat {
    if end < start then 0 else end - start + 1
  }

  /**
    The outcomes of the days start..end: every day of the range exactly once,
    in increasing order, and nothing when start > end.
   */
  function Schedule(start: Day, end: Day, env: Env): (log: seq<DayOutcome>)
    ensures |log| == RangeLength(start, end)
    ensures forall i :: 0 <= i < |log| ==> log[i].day == start + i
  {
    var log := seq(RangeLength(start, end), i => ProcessDay(start + i, env));
    assert forall i :: 0 <= i < |log| ==> log[i] == ProcessDay(start + i, env);
    log
  }

  /** One more pass of the loop appends the outcome of the next day. */
  lemma {:induction false} ScheduleExtends(start: Day, end: Day, env: Env)
    requires start <= end + 1
    ensures Schedule(start, end + 1, env) == Schedule(start, end, env) + [ProcessDay(end + 1, env)]
  {
    var log, log' := Schedule(start, end, env), Schedule(start, end + 1, env);
    assert |log'| == |log| + 1;
    forall i | 0 <= i < |log|
      ensures log'[i] == log[i]
    {
    }
  }

  /**
    A day is skipped exactly when it is a Thursday, a Friday, a holiday or an
    exception, and then with the reason SkipReason chooses.
   */
  lemma {:induction false} SkipRule(d: Day, env: Env)
    ensures ProcessDay(d, env).Skipped? <==> IsOffDay(d, env.cal)
    ensures ProcessDay(d, env).Skipped? ==> ProcessDay(d, env).reason == SkipReason(d, env.cal)
  {
    if !IsOffDay(d, env.cal) {
      WorkingDay(d, env);
    }
  }

  /**
    The "cannot generate afternoon time" branch is never taken: the latest
    entrance, 10:45, plus nine hours is 19:45, before 20:00.
   */
  lemma {:induction false} NeverUngenerable(d: Day, env: Env)
    ensures !ProcessDay(d, env).Ungenerable?
  {
    if !IsOffDay(d, env.cal) {
      var morning := RandInt(MorningStart, MorningEnd, env.draws.morning(d));
      assert morning + MinShift <= MorningEnd + MinShift < AfternoonMax;
    }
  }

  /**
    A working day is worked: the entrance lies in 09:00..10:45, the exit at
    least nine hours later and by 20:00; the entrance is submitted first and
    the exit second, both as attendance records (type 2, sub-type 0, no
    request type id) whose start and end are the same timestamp of that day,
    a timestamp whose clock reads back as the generated minute.
   */
  lemma {:induction false} WorkingDay(d: Day, env: Env)
    requires !IsOffDay(d, env.cal)
    ensures ProcessDay(d, env).Worked?
    ensures MorningStart <= ProcessDay(d, env).entrance <= MorningEnd
    ensures ProcessDay(d, env).entrance + MinShift <= ProcessDay(d, env).exit <= AfternoonMax
    ensures ProcessDay(d, env).exit - ProcessDay(d, env).entrance >= MinShift
    ensures AttendanceAt(ProcessDay(d, env).entranceAttempt.request,
                         env.cal.dateText(d), ProcessDay(d, env).entrance, EntranceLabel)
    ensures AttendanceAt(ProcessDay(d, env).exitAttempt.request,
                         env.cal.dateText(d), ProcessDay(d, env).exit, ExitLabel)
    ensures ProcessDay(d, env).entranceAttempt.result == UpdateResult(env.status(d, Entrance))
    ensures ProcessDay(d, env).exitAttempt.result == UpdateResult(env.status(d, Exit))
  {
    var o := ProcessDay(d, env);
    var morning := RandInt(MorningStart, MorningEnd, env.draws.morning(d));
    assert morning + MinShift <= AfternoonMax;
    var afternoon := RandInt(morning + MinShift, AfternoonMax, env.draws.afternoon(d));
    assert o.entrance == morning && o.exit == afternoon;
    ClockRoundTrip(env.cal.dateText(d), morning);
    ClockRoundTrip(env.cal.dateText(d), afternoon);
  }

  /**
    An attendance record for minute m of the day whose text is date: type 2,
    sub-type 0, no request type id, the given description, and the same
    timestamp as start and end, on that date, whose clock reads back as m.
   */
  ghost predicate AttendanceAt(q: UserRequest, date: string, m: int, description: string) {
    && q.requestType == AttendanceType && q.subType == EntranceExitSubType
    && q.requestTypeId == "" && q.description == description
    && q.start == q.end
    && |q.start| >= ClockLength
    && q.start[..|q.start| - ClockLength] == date
    && ParseClock(q.start) == Some(m)
  }

  /** The records submitted on one day, whatever the service answered. */
  function DayRequests(o: DayOutcome): seq<UserRequest> {
    if o.Worked? then [o.entranceAttempt.request, o.exitAttempt.request] else []
  }

  function Requests(log: seq<DayOutcome>): seq<UserRequest> {
    if log == [] then [] else Requests(log[..|log| - 1]) + DayRequests(log[|log| - 1])
  }

  /** Adding one day to a log adds that day's records at the end. */
  lemma {:induction false} RequestsExtend(log: seq<DayOutcome>, o: DayOutcome)
    ensures Requests(log + [o]) == Requests(log) + DayRequests(o)
  {
    assert (log + [o])[..|log|] == log;
  }

  /** The update POSTs a client with this base URL and tenant sends for the records qs, in order. */
  function Posts(baseUrl: string, tenantId: Option<string>, qs: seq<UserRequest>): (ps: seq<HttpRequest>)
    ensures |ps| == |qs|
  {
    seq(|qs|, i requires 0 <= i < |qs| => UpdatePost(baseUrl, tenantId, qs[i]))
  }

  lemma {:induction false} PostsAppend(baseUrl: string, tenantId: Option<string>, qs: seq<UserRequest>, rs: seq<UserRequest>)
    ensures Posts(baseUrl, tenantId, qs + rs) == Posts(baseUrl, tenantId, qs) + Posts(baseUrl, tenantId, rs)
  {
    var all, ps, ps' := Posts(baseUrl, tenantId, qs + rs), Posts(baseUrl, tenantId, qs), Posts(baseUrl, tenantId, rs);
    forall i | 0 <= i < |all|
      ensures all[i] == (ps + ps')[i]
    {
      if i < |qs| {
        assert (qs + rs)[i] == qs[i];
      } else {
        assert (qs + rs)[i] == rs[i - |qs|];
      }
    }
  }

  lemma {:induction false} PostsOfTwo(baseUrl: string, tenantId: Option<string>, q: UserRequest, r: UserRequest)
    ensures Posts(baseUrl, tenantId, [q, r]) == [UpdatePost(baseUrl, tenantId, q), UpdatePost(baseUrl, tenantId, r)]
  {
    var ps := Posts(baseUrl, tenantId, [q, r]);
    assert ps[0] == UpdatePost(baseUrl, tenantId, q);
    assert ps[1] == UpdatePost(baseUrl, tenantId, r);
  }

  /**
    Every POST of a run goes to the update endpoint, carries the `tenantid`
    header exactly when the client holds a truthy tenant, and has a body the
    service reads as the record it was sent for.
   */
  lemma {:induction false} PostsCarryRecords(baseUrl: string, tenantId: Option<string>, qs: seq<UserRequest>)
    ensures forall i :: 0 <= i < |qs| ==>
      && Posts(baseUrl, tenantId, qs)[i].Post?
      && Posts(baseUrl, tenantId, qs)[i].url == UpdateUrl(baseUrl)
      && (TenantIdHeader in Posts(baseUrl, tenantId, qs)[i].headers <==> Truthy(tenantId))
      && (Truthy(tenantId) ==> Posts(baseUrl, tenantId, qs)[i].headers[TenantIdHeader] == tenantId.value)
      && ReadPayload(Posts(baseUrl, tenantId, qs)[i].body) == Some(qs[i])
  {
    var ps := Posts(baseUrl, tenantId, qs);
    forall i | 0 <= i < |qs|
      ensures ReadPayload(ps[i].body) == Some(qs[i])
    {
      PayloadRoundTrip(qs[i]);
    }
  }

  /** The number of working days from start to end inclusive. */
  function WorkingDays(start: Day, end: Day, cal: Calendar): nat
    decreases end - start
  {
    if end < start then 0
    else WorkingDays(start, end - 1, cal) + (if IsOffDay(end, cal) then 0 else 1)
  }

  /** A day is worked exactly when it is a working day. */
  lemma {:induction false} WorkedIffWorkingDay(d: Day, env: Env)
    ensures ProcessDay(d, env).Worked? <==> !IsOffDay(d, env.cal)
  {
    SkipRule(d, env);
    NeverUngenerable(d, env);
  }

  /** Counting the records submitted along any log whose i-th day is worked exactly when day start + i is a working day. */
  lemma {:induction false} LogSubmissionCount(log: seq<DayOutcome>, start: Day, cal: Calendar)
    requires forall i :: 0 <= i < |log| ==> (log[i].Worked? <==> !IsOffDay(start + i, cal))
    ensures |Requests(log)| == 2 * WorkingDays(start, start + |log| - 1, cal)
  {
    if log != [] {
      LogSubmissionCount(log[..|log| - 1], start, cal);
    }
  }

  /** Two submissions per working day and none for any other day. */
  lemma {:induction false} SubmissionCount(start: Day, end: Day, env: Env)
    ensures |Requests(Schedule(start, end, env))| == 2 * WorkingDays(start, end, env.cal)
  {
    var log := Schedule(start, end, env);
    forall i | 0 <= i < |log|
      ensures log[i].Worked? <==> !IsOffDay(start + i, env.cal)
    {
      WorkedIffWorkingDay(start + i, env);
    }
    LogSubmissionCount(log, start, env.cal);
    if end < start {
      assert WorkingDays(start, start - 1, env.cal) == 0 == WorkingDays(start, end, env.cal);
    }
  }

  /** The records submitted on one day do not depend on the service's answers. */
  lemma {:induction false} DayRequestsIgnoreReplies(d: Day, env: Env, other: (Day, Leg) -> int)
    ensures DayRequests(ProcessDay(d, env)) == DayRequests(ProcessDay(d, env.(status := other)))
  {
  }

  /** Two logs whose days submit the same records submit the same records overall. */
  lemma {:induction false} LogRequestsEqual(log: seq<DayOutcome>, log': seq<DayOutcome>)
    requires |log| == |log'|
    requires forall i :: 0 <= i < |log| ==> DayRequests(log[i]) == DayRequests(log'[i])
    ensures Requests(log) == Requests(log')
  {
    if log != [] {
      LogRequestsEqual(log[..|log| - 1], log'[..|log'| - 1]);
    }
  }

  /**
    A failed submission stops nothing: whatever the service answers, the run
    visits the same days and submits the same records in the same order.
   */
  lemma {:induction false} FailuresDoNotStop(start: Day, end: Day, env: Env, other: (Day, Leg) -> int)
    ensures Requests(Schedule(start, end, env)) == Requests(Schedule(start, end, env.(status := other)))
  {
    var log, log' := Schedule(start, end, env), Schedule(start, end, env.(status := other));
    forall i | 0 <= i < |log|
      ensures DayRequests(log[i]) == DayRequests(log'[i])
    {
      DayRequestsIgnoreReplies(start + i, env, other);
    }
    LogRequestsEqual(log, log');
  }

  /** The ordinal of Tuesday 2025-02-04. */
  const Feb4th2025: Day := 739286

  /**
    Without holidays or exceptions, any seven consecutive days hold exactly
    five working days: the weekend is two days of every week.
   */
  lemma {:induction false} FiveWorkingDaysAWeek(d: Day, cal: Calendar)
    requires cal.holidays == map[] && cal.exceptions == {}
    ensures WorkingDays(d, d + 6, cal) == 5
  {
    var off := WeekendFlags(d);
    assert WorkingDays(d, d - 1, cal) == 0;
    assert WorkingDays(d, d, cal) == 1 - off[0];
    assert WorkingDays(d, d + 1, cal) == WorkingDays(d, d, cal) + 1 - off[1];
    assert WorkingDays(d, d + 2, cal) == WorkingDays(d, d + 1, cal) + 1 - off[2];
    assert WorkingDays(d, d + 3, cal) == WorkingDays(d, d + 2, cal) + 1 - off[3];
    assert WorkingDays(d, d + 4, cal) == WorkingDays(d, d + 3, cal) + 1 - off[4];
    assert WorkingDays(d, d + 5, cal) == WorkingDays(d, d + 4, cal) + 1 - off[5];
  }

  /** Which of the seven days from d fall on the weekend (1) or not (0); exactly two do. */
  lemma {:induction false} WeekendFlags(d: Day) returns (off: seq<int>)
    ensures |off| == 7
    ensures forall k :: 0 <= k < 7 ==> off[k] == (if IsWeekend(d + k) then 1 else 0)
    ensures off[0] + off[1] + off[2] + off[3] + off[4] + off[5] + off[6] == 2
  {
    var w := Weekday(d);
    var ws := [w, Weekday(d + 1), Weekday(d + 2), Weekday(d + 3), Weekday(d + 4), Weekday(d + 5), Weekday(d + 6)];
    WeekdayShift(d, ws);
    off := seq(7, k => if IsWeekend(d + k) then 1 else 0);
  }

  /** The weekdays of seven consecutive days run on from the first, wrapping after Sunday. */
  lemma {:induction false} WeekdayShift(d: Day, ws: seq<int>)
    requires ws == [Weekday(d), Weekday(d + 1), Weekday(d + 2), Weekday(d + 3), Weekday(d + 4), Weekday(d + 5), Weekday(d + 6)]
    ensures forall k :: 0 <= k < 7 ==> ws[k] == (ws[0] + k) % 7
  {
    var q := (d + 6) / 7;
    assert d + 6 == 7 * q + ws[0];
    forall k | 0 <= k < 7
      ensures ws[k] == (ws[0] + k) % 7
    {
      assert d + k + 6 == 7 * q + (ws[0] + k);
    }
  }

  /** Two of the four days are working days: Tuesday and Wednesday. */
  lemma {:induction false} FebruaryWorkingDays(cal: Calendar)
    requires cal.holidays == map[] && cal.exceptions == {}
    ensures !IsOffDay(Feb4th2025, cal) && !IsOffDay(Feb4th2025 + 1, cal)
    ensures IsWeekend(Feb4th2025 + 2) && IsWeekend(Feb4th2025 + 3)
    ensures WorkingDays(Feb4th2025, Feb4th2025 + 3, cal) == 2
  {
    var d := Feb4th2025;
    assert Weekday(d) == 1 && Weekday(d + 1) == 2;
    assert Weekday(d + 2) == Thursday && Weekday(d + 3) == Friday;
    assert WorkingDays(d, d - 1, cal) == 0;
    assert WorkingDays(d, d, cal) == 1;
    assert WorkingDays(d, d + 1, cal) == 2;
    assert WorkingDays(d, d + 2, cal) == 2;
  }

  /**
    From Tuesday 2025-02-04 to Friday 2025-02-07 with no holidays and no
    exceptions, Tuesday and Wednesday are worked, Thursday and Friday are
    skipped as the weekend, and four submissions are made.
   */
  lemma {:induction false} FebruaryWeek(env: Env)
    requires env.cal.holidays == map[] && env.cal.exceptions == {}
    ensures Schedule(Feb4th2025, Feb4th2025 + 3, env)[0].Worked?
    ensures Schedule(Feb4th2025, Feb4th2025 + 3, env)[1].Worked?
    ensures Schedule(Feb4th2025, Feb4th2025 + 3, env)[2] == Skipped(Feb4th2025 + 2, DefaultReason)
    ensures Schedule(Feb4th2025, Feb4th2025 + 3, env)[3] == Skipped(Feb4th2025 + 3, DefaultReason)
    ensures |Requests(Schedule(Feb4th2025, Feb4th2025 + 3, env))| == 4
  {
    var d := Feb4th2025;
    FebruaryWorkingDays(env.cal);
    SkipRule(d, env);
    SkipRule(d + 1, env);
    NeverUngenerable(d, env);
    NeverUngenerable(d + 1, env);
    SkipRule(d + 2, env);
    SkipRule(d + 3, env);
    SubmissionCount(d, d + 3, env);
  }

  /**
    One pass of the loop body of `main`, choice 3: classify the day, draw
    the two times and submit entrance then exit, keeping each POST the
    client sends. It changes nothing in the client.
   */
  method ProcessDate(client: NanoWatchClient, current: Day,
                     cal: Calendar, draws: Draws, status: (Day, Leg) -> int)
    returns (outcome: DayOutcome, sent: seq<HttpRequest>)
    ensures outcome == ProcessDay(current, Env(cal, draws, status))
    ensures sent == Posts(client.baseUrl, client.tenantId, DayRequests(outcome))
  {
    if Weekday(current) in {Thursday, Friday} || current in cal.holidays || current in cal.exceptions {
      var reason := if current in cal.holidays then cal.holidays[current] else DefaultReason;
      if current in cal.exceptions {
        reason := ExceptionReason;
      }
      return Skipped(current, reason), [];
    }

    var morning := RandInt(MorningStart, MorningEnd, draws.morning(current));
    var morningStamp := Timestamp(cal.dateText(current), morning);

    var afternoonLower := morning + MinShift;
    if afternoonLower > AfternoonMax {
      return Ungenerable(current), [];
    }

    var afternoon := RandInt(afternoonLower, AfternoonMax, draws.afternoon(current));
    var afternoonStamp := Timestamp(cal.dateText(current), afternoon);

    var entrancePost, entranceResult := client.UpdateUserRequest(
      AttendanceType, morningStamp, morningStamp, status(current, Entrance),
      subType := EntranceExitSubType, description := EntranceLabel, requestTypeId := "");
    var exitPost, exitResult := client.UpdateUserRequest(
      AttendanceType, afternoonStamp, afternoonStamp, status(current, Exit),
      subType := EntranceExitSubType, description := ExitLabel, requestTypeId := "");
    sent := [entrancePost, exitPost];

    var entrance := Attendance(morningStamp, EntranceLabel);
    var exit := Attendance(afternoonStamp, ExitLabel);
    PostsOfTwo(client.baseUrl, client.tenantId, entrance, exit);
    outcome := Worked(current, morning, afternoon,
                      Attempt(entrance, entranceResult), Attempt(exit, exitResult));
  }

  /**
    `main`, choice 3, after the dates are read: the walk over the range,
    from the start date to the end date inclusive, one day per pass. It
    changes nothing in the client; its results are the log of what happened to
    each day and the update POSTs sent, one per record of the log, in order.
   */
  method BulkGenerate(client: NanoWatchClient, start: Day, end: Day,
                      cal: Calendar, draws: Draws, status: (Day, Leg) -> int)
    returns (log: seq<DayOutcome>, sent: seq<HttpRequest>)
    ensures log == Schedule(start, end, Env(cal, draws, status))
    ensures sent == Posts(client.baseUrl, client.tenantId, Requests(log))
    ensures |sent| == 2 * WorkingDays(start, end, cal)
  {
    ghost var env := Env(cal, draws, status);
    log, sent := [], [];
    var current := start;
    while current <= end
      invariant current == start || start < current <= end + 1
      invariant log == Schedule(start, current - 1, env)
      invariant sent == Posts(client.baseUrl, client.tenantId, Requests(log))
    {
      ScheduleExtends(start, current - 1, env);
      var outcome, daySent := ProcessDate(client, current, cal, draws, status);
      RequestsExtend(log, outcome);
      PostsAppend(client.baseUrl, client.tenantId, Requests(log), DayRequests(outcome));
      log := log + [outcome];
      sent := sent + daySent;
      current := current + 1;
    }
    SubmissionCount(start, end, env);
  }
}
