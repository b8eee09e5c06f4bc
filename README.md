# NanoWatch attendance client — a Dafny model

NanoWatch is a time-attendance web service. `nanowatch.py` is a small client
for it. It logs in and reads the user's profile to learn the tenant. It then
submits attendance or leave records. Its bulk mode walks a date range and
skips weekends (Thursday and Friday), Iranian public holidays and the days
the user listed as exceptions. For every other day it draws a random entrance
time and a random exit time at least nine hours later, and it submits both.

The project models:

- `http.dfy` (module `Http`): the values that cross the wire. These are JSON
  scalars, headers, bodies, requests, and the `Option`/`Result` wrappers.
  Header names and body keys are enumerations. `HeaderText` and `FieldText`
  give their wire spelling, and distinct names are spelled differently.
- `client.dfy` (module `Client`): the class `NanoWatchClient`. It covers
  base-URL normalisation in the constructor, the control flow of `login` and
  `get_profile`, and the headers and body that `update_user_request` builds.
  A reader of the body, `ReadPayload`, is the partner of the writer.
- `clock.dfy` (module `Clock`): the `<date>THH:MM:00+03:30` timestamps of the
  bulk mode, and a parser for their clock fields.
- `scheduler.dfy` (module `Scheduler`): the bulk loop. `BulkGenerate` is the
  imperative loop, and `ProcessDate` is one pass of its body. They are proved
  equal to the functions `Schedule` and `ProcessDay`. `Schedule` maps each day
  of the range to `ProcessDay` of that day. The lemmas state what a run does.
  Each day's log entry records the fields passed to `update_user_request`
  and the outcome of that call. Both methods also return the POSTs the
  client sent. Their contracts equal them to `Posts`, the update requests
  for the records of the log in order, built from the client's base URL and
  tenant.

Days are integer ordinals in the numbering of Python's `date.toordinal`, and
`weekday(d) = (d + 6) % 7`. The holiday calendar is a map from day to label.
The exception list is a set of days. The text `str(date)` of a day is a
function supplied by the caller. Each `random.randint(lo, hi)` is modelled as
`lo + roll % (hi - lo + 1)` with a caller-supplied roll. `RandIntOnto` shows
that every value of the interval can be drawn. The service's answer to each
submission is its HTTP status. Any status other than 200 is a failure, and the
loop records the failure and carries on.

`login` overwrites the stored tenant on every successful login whose profile
has a `tenantId` (nanowatch.py:48-49). The model follows the code (`Login`).

## Model

| member | source | states |
|---|---|---|
| `Client.StripTrailingSlashes` | nanowatch.py:17 | `rstrip('/')`: the result is a prefix of the input. It is empty or does not end in `/`, and everything it drops is `/`. |
| `Client.StripTrailingSlashesUnique` | nanowatch.py:17 | Those three properties determine the stripped string uniquely. |
| `Client.StripTrailingSlashesIdempotent` | nanowatch.py:17 | Stripping an already stripped base URL changes nothing. |
| `Client.NanoWatchClient.constructor` | nanowatch.py:12-18 | The stored base URL is the stripped argument, which defaults to `https://app.nanowatch.org`, and it never ends in `/`. No tenant is stored. |
| `Client.NanoWatchClient.GetProfile` | nanowatch.py:52-68 | Sends one GET to `/api/v2/account/GetMyProfile`. Returns the profile exactly when the status is 200, and `ProfileFailed(status)` otherwise. It modifies nothing, so the stored tenant is untouched. |
| `Client.NanoWatchClient.Login` | nanowatch.py:20-50 | A non-200 login fails with `LoginFailed(status)`. A false `success` fails with `LoginUnsuccessful`. A failed profile fetch fails with `ProfileFailed`. The profile GET is sent only after a successful login. The tenant becomes the profile's `tenantId` only on full success with a `tenantId` present, and is unchanged otherwise. |
| `Client.UpdateHeaders` | nanowatch.py:84-93 | The `tenantid` header is present exactly when the stored tenant is truthy, that is present and non-empty, and then it carries that tenant. Without it, the headers are the five fixed ones whatever the tenant. |
| `Client.Payload` | nanowatch.py:105-112 | The update body has exactly the six fixed keys. |
| `Client.PayloadRoundTrip` | nanowatch.py:105-112 | Reading the body back gives the same type, request type id, start, end, sub-type and description. Start and end pass through unchanged. |
| `Client.ReadPayloadIsWritten` | nanowatch.py:105-112 | Any body that reads as a record is exactly the body the client writes for that record. |
| `Client.UpdateResult` | nanowatch.py:113-117 | An update succeeds exactly when the status is 200. Otherwise it fails with `UpdateFailed(status)`. |
| `Client.NanoWatchClient.UpdateUserRequest` | nanowatch.py:70-117 | With sub-type 0, an empty description and an empty request type id by default, it sends one POST to `/api/v2/userrequest/update` with the `UpdateHeaders` headers and the `Payload` body. The result is `Ok` exactly on status 200, and `UpdateFailed(status)` otherwise. |
| `Clock.Pad2` | nanowatch.py:234-236 | `{n:02d}` for n < 100 writes two decimal digits whose value is n. |
| `Clock.Timestamp` | nanowatch.py:234-236 | The timestamp is the date text followed by exactly 15 characters: `T`, HH, `:`, MM and `:00+03:30`. |
| `Clock.ClockRoundTrip` | nanowatch.py:231-249 | Parsing HH and MM back from a written timestamp gives `hour*60 + minute` equal to the minute-of-day written. |
| `Clock.ParsedClockIsWritten` | nanowatch.py:231-249 | Any string whose clock fields parse to m is its date part followed by the clock written for m. |
| `Scheduler.Weekday` | nanowatch.py:220 | `date.weekday()` of an ordinal lies in 0..6. |
| `Scheduler.WeekdayAdvances` | nanowatch.py:220 | Ordinal 1 (0001-01-01) is a Monday. Each next day advances the weekday by one modulo 7, so the weekday repeats every seven days. |
| `Scheduler.IsOffDay` | nanowatch.py:220-222 | An exception is always skipped. With no holidays and no exceptions, exactly the Thursdays and Fridays are skipped. |
| `Scheduler.FiveWorkingDaysAWeek` | nanowatch.py:220-222 | With no holidays and no exceptions, any seven consecutive days hold exactly five working days. |
| `Scheduler.SkipReason` | nanowatch.py:223-225 | An exception gives "Exception (Off Work)" even on a holiday. Otherwise a holiday gives its label. Otherwise the reason is "Weekend/Exception". |
| `Scheduler.RandInt` | nanowatch.py:233 | A draw lies in the closed interval [lo, hi]. |
| `Scheduler.RandIntOnto` | nanowatch.py:246 | Every value of [lo, hi] is the draw of some roll. |
| `Scheduler.ProcessDay` | nanowatch.py:218-283 | One pass of the loop for day d gives an outcome about day d. What it does is stated by `SkipRule`, `NeverUngenerable` and `WorkingDay`, including the caught result of each submission. |
| `Scheduler.Schedule` | nanowatch.py:215-217 | The run has one outcome per day from start to end inclusive, and the i-th outcome is about day start + i. It is empty when start > end. |
| `Scheduler.ScheduleExtends` | nanowatch.py:217-283 | One more pass of the loop appends the next day's outcome to the run so far. |
| `Scheduler.SkipRule` | nanowatch.py:220-228 | A day is skipped exactly when its weekday is 3 or 4, or it is a holiday, or it is an exception. Then the reason is the one `SkipReason` chooses. |
| `Scheduler.NeverUngenerable` | nanowatch.py:239-244 | The "cannot generate afternoon time" branch is never taken, since 645 + 540 = 1185 <= 1200. |
| `Scheduler.WorkingDay` | nanowatch.py:230-281 | On a working day the entrance is in [540, 645] and the exit is in [entrance+540, 1200], so the gap is at least 540 minutes. Entrance and exit are submitted as attendance records (type 2, sub-type 0, empty request type id, labels ورود and خروج) with equal start and end. Each timestamp is on that day's date and reads back as its minute. Each submission's result is recorded for the day: `Ok` on status 200, `UpdateFailed(status)` otherwise. |
| `Scheduler.WorkedIffWorkingDay` | nanowatch.py:220-281 | A day gets its two submissions exactly when it is not a Thursday, a Friday, a holiday or an exception. |
| `Scheduler.SubmissionCount` | nanowatch.py:255-281 | A run submits exactly two records per working day and none for any skipped day. |
| `Scheduler.FailuresDoNotStop` | nanowatch.py:256-283 | Whatever statuses the service returns, the run submits the same records in the same order. A failure does not end the run. How each failure is recorded is stated by `WorkingDay`. |
| `Scheduler.PostsCarryRecords` | nanowatch.py:83-113 | Every POST of a run goes to `/api/v2/userrequest/update`. It carries the `tenantid` header exactly when the client holds a truthy tenant, and then with that tenant. Its body reads back as the record it was sent for. |
| `Scheduler.FebruaryWeek` | nanowatch.py:215-283 | From Tuesday 2025-02-04 to Friday 2025-02-07, with no holidays or exceptions, Tuesday and Wednesday are worked. Thursday and Friday are skipped as the weekend, and four submissions are made. |
| `Scheduler.ProcessDate` | nanowatch.py:218-283 | One pass of the loop body gives exactly `ProcessDay` of that day. It skips with the chosen reason, or it draws the two times and submits entrance then exit through the client, catching each failure. The POSTs it sent are exactly the update requests for that day's records, none for a skipped day and two for a worked day, under the client's base URL and tenant. |
| `Scheduler.BulkGenerate` | nanowatch.py:211-283 | The imperative `while current_date <= end_date` loop produces exactly `Schedule(start, end, …)`. The POSTs sent are exactly `Posts` of the log's records, in order, under the client's base URL and tenant. There are two of them per working day of the range. It leaves the client unchanged. |

## Left out

- HTTP transport: sessions, cookies, sockets and `.json()` decoding of replies. A reply is modelled by its status and by the one field the client reads, which is `success` for login and `tenantId` for the profile.
- Header and body keys: the model keys headers and bodies by enumerations instead of by strings. The client only ever uses those fixed names, and `HeaderTextInjective` and `FieldTextInjective` show that no two of them share a spelling.
- Client.NanoWatchClient.GetProfile: returns only the `tenantId` entry of the profile, because that is the only entry the client inspects. The rest of the JSON is not modelled.
- Client.NanoWatchClient.Login: returns `Ok(())` instead of the parsed login reply, which the client never reads. A profile whose `tenantId` is JSON `null` or a non-string is not modelled: the field is either an absent key or a string.
- The `datetime.isoformat()` branch of `update_user_request` (nanowatch.py:96-103). Start and end are always strings, which is the only form the bulk loop and the menu pass.
- `holidays.Iran` (nanowatch.py:211-213): an external calendar library, taken as the input map from day to label.
- `random.randint`: the randomness is a caller-supplied roll per draw, and `RandIntOnto` shows that no value of the interval is excluded.
- `str(date)`: the Gregorian rendering of a day is a caller-supplied function, because the model numbers days by ordinal.
- Scheduler.BulkGenerate: does not model the `OverflowError` that Python raises when the end date is 9999-12-31 and the loop steps past it. Model days are unbounded integers.
- `configparser`, `strptime` parsing of the exception list and of the dates typed in, `input`/`print`, the menu, and the single-request choices 1 and 2 (nanowatch.py:120-209, 284-285). These are file I/O and CLI plumbing. The messages printed for skipped days become the `Skipped(day, reason)` entries of the run's log.
