# Influencer monitor: change detection and daily report bookkeeping

This project models the core of `main.py`, a polling monitor. For every
configured influencer it fetches two monthly counters from a metrics API:
leads (`sumLead`) and enrolments (`sumWins`). It posts a Discord message
when the counters change, and it posts a general report with the totals at
fixed times of day.

The program keeps four module-level dictionaries:

- `HISTORICO`: the last fetched counters per name.
- `ULTIMO_ENVIADO`: the last notified counters per name.
- `RELATORIO_ENVIADO`: a fired flag per report time ("11:00", "17:30").
- `RELATORIO_ULTIMO_TOTAL`: the last reported totals.

The model has six modules:

- `Wrappers` (wrappers.dfy): the `Option` type.
- `Json` (json.dfy): the decoded API body, Python truthiness, and the
  selection `get_summary` makes from the body.
- `Decimal` (decimal.dfy): Python's `str` of a positive delta, and a reader
  that gets the number back.
- `Bookkeeping` (bookkeeping.dfy): the state machine as functions over one
  `State` value. It covers `process_influencer`, `enviar_relatorio_geral`,
  the report schedule and one pass of `main`'s loop body.
- `BookkeepingProps` (bookkeeping_props.dfy): the properties of that state
  machine.
- `Monitor` (monitor.dfy): class `Monitor`, whose fields are the four
  dictionaries plus a log of every call of `send_to_discord`. Each method
  changes these fields in place. Each method's postcondition says the new
  state is exactly what the matching `Bookkeeping` function computes.

Inputs that the program gets from its environment are parameters here:

- The outcome of each HTTP request is a `FetchOutcome`: a decoded body, or
  a failure.
- The clock reading of a cycle is the `"HH:MM"` string `now`.
- The contents of `webhooks.json` are a sequence of `Entry(name, webhook)`.
  The sequence keeps the file's order, and its names are distinct.
- A send is appended to `outbox`. The sender swallows its own errors, so the
  model does not depend on whether delivery worked.

An exception that `main` does not catch ends the process. The model
represents that outcome as `Run.Halted`. Two things raise such an exception:
calling `.get` on a summary that is not a dict, and a counter that cannot be
subtracted from an int.

The model follows the code as written:

- Report times fire on exact equality of the `"HH:MM"` string, not "at or
  after" the time.
- `ULTIMO_ENVIADO` advances after a send whether or not delivery worked.
- The general report sums `HISTORICO`, not the last notified counters.
- Nothing is persisted, saved atomically or retried.
- The midnight reset runs after the due checks of the same cycle, not
  before them.

## Model

| member | source | states |
|---|---|---|
| `Json.SelectSummary` | main.py:34-45 | The summary is the first element of `data["data"]` when the body is a dict whose "data" is a non-empty list. Otherwise, including a failed request, it is `{}`, which is false. A true summary always comes from such a list. |
| `Bookkeeping.ReadCounter` | main.py:59-66 | A missing `sumLead`/`sumWins` key reads as 0. An integer reads as itself and a boolean as 0/1. Any other value makes the delta subtraction raise. |
| `Bookkeeping.ReadSummary` | main.py:55-66 | A false summary is skipped. A true summary that is not a dict, or that has a non-numeric counter, raises. Otherwise the counters are read from the summary. |
| `Bookkeeping.Annotation` | main.py:73-74 | The `( +N)` text is empty exactly when the delta is zero or negative. |
| `Decimal.NatToString` | main.py:73-74 | `str` of a natural number is non-empty, is all decimal digits, and has no leading zero when positive. |
| `Decimal.ParseNatString` | main.py:73-74 | Reading back the digits `str` prints gives the same number. |
| `Bookkeeping.UpdateMessage` | main.py:72-75 | The update for one influencer: its name, the fetched counters, and after each the `( +d)` annotation of its delta against the previous `HISTORICO` value. `UpdateShowsPositiveDeltas` states what it shows. |
| `Bookkeeping.Initial` | main.py:13-28 | The loaded state has exactly the configured names as keys of both per-name maps, every `sumLead`/`sumWins` 0, exactly the report times as flags, every flag False, a zero `RELATORIO_ULTIMO_TOTAL` and nothing sent. |
| `Bookkeeping.Process` | main.py:54-80 | Processing one influencer keeps the key sets of both per-name maps. It never touches the report flags or the last reported totals. |
| `Bookkeeping.ProcessAll` | main.py:109-111 | The influencer loop keeps the key sets of both per-name maps and leaves the report flags and totals alone. |
| `Bookkeeping.Total` | main.py:83-84 | The sums of `sumLead` and `sumWins` over `HISTORICO` for every configured name. `TotalOfZeros` and `TotalAfterUpdate` state what they add up to. |
| `Bookkeeping.Report` | main.py:82-100 | The general report changes neither per-name map nor any flag. |
| `Bookkeeping.Due` | main.py:115 | A report time is due when the `"HH:MM"` reading equals it exactly and its flag is down. `FireDue`'s postcondition and `DueFiresReport` state what a due time does. |
| `Bookkeeping.FireDue` | main.py:114-117 | After the report loop, a flag is up iff it was up before or its time equals `now` exactly. This holds whether or not a report went out. The per-name maps are unchanged. |
| `Bookkeeping.ResetFlags` | main.py:120-123 | At exactly "00:00" every flag is down. At any other time nothing changes. Only the flags ever change. |
| `Bookkeeping.Cycle` | main.py:105-123 | One pass of the loop body keeps the key sets of every dictionary. It ends the process exactly when the influencer loop does, since the report and reset steps never raise. |
| `Bookkeeping.Cycles` | main.py:104-125 | A finite run of passes keeps the key sets of every dictionary. |
| `BookkeepingProps.EmptySummaryIsNoOp` | main.py:43-45 | A failed request or an empty summary changes no dictionary and sends nothing. |
| `BookkeepingProps.OnlyDataItemCounts` | main.py:38-42 | A body without a first "data" element changes nothing. |
| `BookkeepingProps.CrashChangesNothing` | main.py:59-66 | Processing raises iff the summary cannot be read. A raise happens before any dictionary changes. |
| `BookkeepingProps.NotifiesIffChanged` | main.py:71-77 | A message goes out iff the fetched counters differ from the `ULTIMO_ENVIADO` entry. That message is the update with deltas against `HISTORICO`. |
| `BookkeepingProps.ProcessRecordsCounters` | main.py:68-69 | After a readable summary, `HISTORICO[name]` and `ULTIMO_ENVIADO[name]` both equal the fetched counters, and no other name changes. |
| `BookkeepingProps.ProcessTwiceIsNoOp` | main.py:65-80 | Processing the same response again right away changes nothing and sends nothing. |
| `BookkeepingProps.ProcessTwiceSendsAtMostOnce` | main.py:71-77 | Two calls in a row with the same response send at most one message. |
| `BookkeepingProps.AnnotationShowsGain` | main.py:73-74 | The annotation is present iff the delta is positive. It then reads `( +N)` with N the delta in decimal. |
| `BookkeepingProps.UpdateShowsPositiveDeltas` | main.py:72-75 | An update shows the fetched counters. Each counter carries `( +d)` iff its delta against the previous `HISTORICO` value is positive, and d reads back as that delta. |
| `BookkeepingProps.InitialAgrees` | main.py:13-21 | Both per-name maps start equal. |
| `BookkeepingProps.AgreedNotifyIffDelta` | main.py:65-77 | When the maps agree, a message goes out iff the fetched counters differ from `HISTORICO`. |
| `BookkeepingProps.ProcessKeepsAgreement` | main.py:68-80 | Processing one influencer keeps both maps equal on every configured name. |
| `BookkeepingProps.ProcessAllKeepsAgreement` | main.py:109-111 | The influencer loop keeps both maps equal on every configured name. |
| `BookkeepingProps.ProcessAllRecordsActive` | main.py:109-111 | After the influencer loop runs to the end, a name with a non-empty webhook whose summary was readable holds the fetched counters in both `HISTORICO` and `ULTIMO_ENVIADO`. |
| `BookkeepingProps.ProcessAllHaltsIff` | main.py:109-111 | The influencer loop ends the process iff some entry with a non-empty webhook has a summary that cannot be read. That means a truthy non-dict, or a counter that is not a number, which raise at lines 59-66. Otherwise it runs to its end. |
| `BookkeepingProps.CycleHaltsIff` | main.py:104-123 | A pass of the loop ends the process iff some processed entry's summary cannot be read. |
| `BookkeepingProps.ProcessAllSends` | main.py:109-111 | When the influencer loop runs to the end, exactly the messages of `Sends` are appended, in entry order. Each is the update of an entry with a non-empty webhook whose readable counters differ from its `ULTIMO_ENVIADO` value at the start of the loop, with deltas against its `HISTORICO` value. |
| `BookkeepingProps.ProcessAllLeavesInactive` | main.py:109-111 | A name with no non-empty webhook is never touched by the loop. |
| `BookkeepingProps.TotalOfZeros` | main.py:83-84 | The totals of an all-zero `HISTORICO` are zero. |
| `BookkeepingProps.TotalAfterUpdate` | main.py:83-84 | The totals count every configured name once. Changing one name's counters moves the totals by exactly that change. Changing an unconfigured name does not move them. |
| `BookkeepingProps.ReportSendsIffChanged` | main.py:86-98 | The report goes out iff the totals differ from `RELATORIO_ULTIMO_TOTAL`, which then equals the totals. |
| `BookkeepingProps.ReportTwiceIsNoOp` | main.py:82-100 | A second report right after the first changes nothing and sends nothing. |
| `BookkeepingProps.NothingDueNoChange` | main.py:114-117 | When no report time is due, the report loop changes nothing. |
| `BookkeepingProps.DueFiresReport` | main.py:114-117 | A due report time sends what `enviar_relatorio_geral` would send and raises its flag. |
| `BookkeepingProps.MidnightResetFollowsDueChecks` | main.py:113-123 | At "00:00" the reports of the due checks stay sent and every flag ends down. The reset comes after the due checks. |
| `BookkeepingProps.CycleFlag` | main.py:113-123 | Away from midnight, a flag is up after a pass iff it was up before or its time equals `now`. |
| `BookkeepingProps.RaisedFlagNeverFires` | main.py:114-117 | A raised flag keeps its time from firing in every later pass until a pass at "00:00". |
| `BookkeepingProps.FiresAtMostOnceUntilMidnight` | main.py:113-123 | Over any run of passes without "00:00", each report time fires at most once. |
| `BookkeepingProps.CycleKeepsAgreement` | main.py:105-123 | One pass keeps both per-name maps equal. |
| `BookkeepingProps.CyclesKeepAgreement` | main.py:104-125 | Any run of passes keeps both per-name maps equal. |
| `BookkeepingProps.InactiveStaysZero` | main.py:109-111 | A name with only empty webhooks keeps its counters over any run. |
| `BookkeepingProps.RunsFromStartAgree` | main.py:13-21 | Starting from the loaded state, both maps agree after any run. |
| `BookkeepingProps.InactiveNameStaysZeroFromStart` | main.py:83-84 | A configured name that is never processed adds zero to every report of a run from the start. |
| `BookkeepingProps.InitialReportIsSilent` | main.py:86-100 | A report on the loaded state sends nothing. |
| `Monitor.Monitor.constructor` | main.py:13-28 | The dictionaries are built all zero and all false over the configured names and report times. |
| `Monitor.Monitor.ProcessInfluencer` | main.py:54-80 | Updates the dictionaries in place to exactly what `Process` computes, and says when an exception escaped. |
| `Monitor.Monitor.SendGeneralReport` | main.py:82-100 | Updates the totals and the send log in place to exactly what `Report` computes. |
| `Monitor.Monitor.ProcessInfluencers` | main.py:109-111 | The loop over the webhooks ends in the state `ProcessAll` computes, and stops at the first exception. |
| `Monitor.Monitor.FireDueReports` | main.py:114-117 | The loop over the report times ends in the state `FireDue` computes. |
| `Monitor.Monitor.ResetDailyFlags` | main.py:120-122 | The reset loop ends in the state `ResetFlags` computes. |
| `Monitor.Monitor.RunCycle` | main.py:105-123 | One pass of the loop body ends in the state `Cycle` computes. |

## Left out

- The HTTP GET in `get_summary` and the POST in `send_to_discord`
  (main.py:30-37, 47-52) are calls into the `requests` library over the
  network. Their outcomes are inputs (`FetchOutcome`) and their calls are
  log entries (`outbox`).
- The URL built from the year and month (main.py:31-33) is left out. It
  depends on the wall clock and only addresses the request.
- Loading `webhooks.json` (main.py:10-11) is file I/O. Its contents are the
  constructor's parameter. Webhook values are modelled as strings; other
  JSON values, such as `null`, are not modelled.
- `datetime.now()`, `strftime` and `time.sleep` (main.py:105-106, 125) read
  the clock and wait. The `"HH:MM"` reading is a parameter of each pass.
- The endless `while True` loop is modelled as one pass (`Cycle`) and as
  finite runs of passes (`Cycles`).
- Emoji, the date and the time in the message texts (main.py:72-75, 89-93),
  and every `print`, are cosmetic. Messages are a datatype that keeps the
  name, the counters, the annotation text and the totals.
- A boolean `sumLead`/`sumWins` is stored in `HISTORICO` as the bool
  itself (main.py:68), so the update at main.py:73-74 prints `True` or
  `False`. The model reads it as 1 or 0 everywhere, so `Update.leads` and
  `Update.wins` hold 1/0 instead. The arithmetic and the comparisons agree.
- JSON numbers are integers here. A float counter, which Python would
  subtract and print as a float, is not modelled.
- The map defaults in `HISTORICO.get(name, ...)` and
  `ULTIMO_ENVIADO.get(name, ...)` (main.py:62-63) never apply, because only
  configured names are processed. `ProcessInfluencer` requires a configured
  name, as its only caller guarantees.
