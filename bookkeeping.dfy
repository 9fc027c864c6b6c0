/**
 * The change-detection and daily-report bookkeeping of the influencer
 * monitor, as functions over an explicit value of its four module-level
 * dictionaries plus the log of messages handed to the Discord sender.
 *
 *   history          HISTORICO               last fetched counters per name
 *   lastSent         ULTIMO_ENVIADO          last notified counters per name
 *   reportFired      RELATORIO_ENVIADO       fired flag per report time
 *   lastReportTotal  RELATORIO_ULTIMO_TOTAL  last reported aggregate
 *   outbox           every call of `send_to_discord`, in order
 *
 * The sender swallows its own failures, so a message in the outbox is one
 * whose delivery was attempted; nothing in the state depends on the outcome.
 */
module Bookkeeping {

  import opened Json
  import opened Decimal
  import opened Wrappers

  /** The two counters the API reports: `sumLead` and `sumWins`. */
  datatype Counters = Counters(leads: int, wins: int)

  const Zero: Counters := Counters(0, 0)

  function Add(a: Counters, b: Counters): Counters {
    Counters(a.leads + b.leads, a.wins + b.wins)
  }

  /** One item of the webhooks configuration, in the order of the file. */
  datatype Entry = Entry(name: string, webhook: string)

  /** The two kinds of message the monitor sends; emoji and dates are left out. */
  datatype Message =
    | Update(name: string, leads: int, leadsNote: string, wins: int, winsNote: string)
    | GeneralReport(totalLeads: int, totalWins: int)

  /** One call of `send_to_discord`. */
  datatype Delivery = Delivery(url: string, message: Message)

  datatype State = State(
    history: map<string, Counters>,
    lastSent: map<string, Counters>,
    reportFired: map<string, bool>,
    lastReportTotal: Counters,
    outbox: seq<Delivery>)

  /**
   * The result of a step: either the loop goes on, or an exception escaped
   * the cycle body, which `main` does not catch, and the process ended.
   */
  datatype Run = Running(state: State) | Halted(state: State)

  /** RELATORIO_WEBHOOK_URL: the shared channel of the general report. */
  const ReportWebhook: string := "https://discord.com/api/webhooks/SEU_WEBHOOK_AQUI"

  /** The keys of RELATORIO_ENVIADO, in their order. */
  const ReportTimes: seq<string> := ["11:00", "17:30"]

  /** The time at which every report flag is cleared. */
  const Midnight: string := "00:00"

  // ---------------------------------------------------------------------------
  // Configuration and state shape

  predicate DistinctNames(items: seq<Entry>) {
    forall i, j | 0 <= i < j < |items| :: items[i].name != items[j].name
  }

  function NameSet(items: seq<Entry>): set<string> {
    set i | 0 <= i < |items| :: items[i].name
  }

  /** A name is processed in a cycle when some entry gives it a non-empty webhook. */
  predicate Active(items: seq<Entry>, name: string) {
    exists i | 0 <= i < |items| :: items[i].name == name && items[i].webhook != ""
  }

  predicate NamesIn(m: map<string, Counters>, items: seq<Entry>) {
    forall i | 0 <= i < |items| :: items[i].name in m
  }

  /** Both per-name maps hold every configured name. */
  predicate Covers(s: State, items: seq<Entry>) {
    NamesIn(s.history, items) && NamesIn(s.lastSent, items)
  }

  predicate HasFlags(s: State, times: seq<string>) {
    forall i | 0 <= i < |times| :: times[i] in s.reportFired
  }

  /** The state the module is loaded with: every counter zero, no flag set. */
  function Initial(items: seq<Entry>): (s: State)
    ensures Covers(s, items) && HasFlags(s, ReportTimes)
    ensures s.history.Keys == s.lastSent.Keys == NameSet(items)
    ensures forall n | n in s.history :: s.history[n] == Zero && s.lastSent[n] == Zero
    ensures s.reportFired.Keys == set t | t in ReportTimes
    ensures forall t | t in s.reportFired :: !s.reportFired[t]
    ensures s.lastReportTotal == Zero && s.outbox == []
  {
    var zeros := map n | n in NameSet(items) :: Zero;
    assert forall i | 0 <= i < |items| :: items[i].name in NameSet(items);
    State(zeros, zeros, map t | t in ReportTimes :: false, Zero, [])
  }

  // ---------------------------------------------------------------------------
  // Reading the summary

  /**
   * `resumo.get(key, 0)` followed by the subtraction that first uses it:
   * a missing key reads as 0, an integer or a boolean (an int in Python)
   * reads as its value, and anything else makes the subtraction raise.
   */
  function ReadCounter(fields: map<string, Json>, key: string): (r: Option<int>)
    ensures key !in fields ==> r == Some(0)
    ensures key in fields && fields[key].JNum? ==> r == Some(fields[key].n)
    ensures key in fields && fields[key].JBool? ==> r == Some(if fields[key].b then 1 else 0)
    ensures r.None? <==> key in fields && !fields[key].JNum? && !fields[key].JBool?
  {
    if key !in fields then Some(0)
    else
      match fields[key]
      case JNum(n) => Some(n)
      case JBool(b) => Some(if b then 1 else 0)
      case _ => None
  }

  /** What `process_influencer` makes of a summary. */
  datatype Reading =
    | Skip                      // `not resumo`: return at once
    | Crash                     // `.get` on a non-dict, or a non-numeric counter
    | Read(counters: Counters)

  function ReadSummary(resumo: Json): (r: Reading)
    ensures r.Skip? <==> !Truthy(resumo)
    ensures r.Read? ==>
              && resumo.JObject?
              && Some(r.counters.leads) == ReadCounter(resumo.fields, "sumLead")
              && Some(r.counters.wins) == ReadCounter(resumo.fields, "sumWins")
    ensures r.Crash? <==>
              && Truthy(resumo)
              && (|| !resumo.JObject?
                  || ReadCounter(resumo.fields, "sumLead").None?
                  || ReadCounter(resumo.fields, "sumWins").None?)
  {
    if !Truthy(resumo) then Skip
    else if !resumo.JObject? then Crash
    else
      var leads := ReadCounter(resumo.fields, "sumLead");
      var wins := ReadCounter(resumo.fields, "sumWins");
      if leads.Some? && wins.Some? then Read(Counters(leads.value, wins.value)) else Crash
  }

  // ---------------------------------------------------------------------------
  // The message of one influencer

  /** The `( +N)` shown after a counter whose delta `d` is positive. */
  function Annotation(d: int): (r: string)
    ensures r == "" <==> d <= 0
  {
    if d > 0 then "( +" + NatToString(d) + ")" else ""
  }

  /** The update for `name`, showing `now` with deltas against `prev`. */
  function UpdateMessage(name: string, now: Counters, prev: Counters): Message {
    Update(name, now.leads, Annotation(now.leads - prev.leads), now.wins, Annotation(now.wins - prev.wins))
  }

  // ---------------------------------------------------------------------------
  // process_influencer

  /**
   * One call of `process_influencer(name, webhook)` on the outcome of the
   * fetch: the deltas are taken against `history`, `history` is overwritten,
   * and a message is sent, then `lastSent` advanced, when the fetched
   * counters differ from `lastSent`.
   */
  function Process(s: State, name: string, webhook: string, response: FetchOutcome): (r: Run)
    requires name in s.history && name in s.lastSent
    ensures r.state.history.Keys == s.history.Keys && r.state.lastSent.Keys == s.lastSent.Keys
    ensures r.state.reportFired == s.reportFired && r.state.lastReportTotal == s.lastReportTotal
  {
    match ReadSummary(SelectSummary(response))
    case Skip => Running(s)
    case Crash => Halted(s)
    case Read(c) =>
      var recorded := s.(history := s.history[name := c]);
      if c != s.lastSent[name] then
        Running(recorded.(
          lastSent := s.lastSent[name := c],
          outbox := s.outbox + [Delivery(webhook, UpdateMessage(name, c, s.history[name]))]))
      else
        Running(recorded)
  }

  /**
   * The first loop of a cycle: every entry with a non-empty webhook is
   * processed, in order, with the outcome `fetch` gives for its name; an
   * exception ends the loop and the process.
   */
  function ProcessAll(s: State, items: seq<Entry>, fetch: string -> FetchOutcome): (r: Run)
    requires Covers(s, items)
    ensures r.state.history.Keys == s.history.Keys && r.state.lastSent.Keys == s.lastSent.Keys
    ensures r.state.reportFired == s.reportFired && r.state.lastReportTotal == s.lastReportTotal
    decreases |items|
  {
    if items == [] then Running(s)
    else
      var e := items[0];
      var r := if e.webhook != "" then Process(s, e.name, e.webhook, fetch(e.name)) else Running(s);
      if r.Halted? then r else ProcessAll(r.state, items[1..], fetch)
  }

  /**
   * Entry `k` makes `process_influencer` raise: its webhook is non-empty, so
   * it is processed, and its summary cannot be read.
   */
  predicate CrashAt(items: seq<Entry>, fetch: string -> FetchOutcome, k: int)
    requires 0 <= k < |items|
  {
    items[k].webhook != "" && ReadSummary(SelectSummary(fetch(items[k].name))).Crash?
  }

  /**
   * What processing entry `e` sends, judged against state `s`: its update
   * when the webhook is non-empty, the summary is readable and the counters
   * differ from the last notified ones, and nothing otherwise.
   */
  function EntrySend(s: State, e: Entry, fetch: string -> FetchOutcome): seq<Delivery>
    requires e.name in s.history && e.name in s.lastSent
  {
    var rd := ReadSummary(SelectSummary(fetch(e.name)));
    if e.webhook != "" && rd.Read? && rd.counters != s.lastSent[e.name]
    then [Delivery(e.webhook, UpdateMessage(e.name, rd.counters, s.history[e.name]))]
    else []
  }

  /** The updates of the first loop of a cycle, every entry judged against `s`. */
  function Sends(s: State, items: seq<Entry>, fetch: string -> FetchOutcome): seq<Delivery>
    requires Covers(s, items)
    decreases |items|
  {
    if items == [] then [] else EntrySend(s, items[0], fetch) + Sends(s, items[1..], fetch)
  }

  // ---------------------------------------------------------------------------
  // enviar_relatorio_geral

  /** `sum(HISTORICO[name][...] for name in WEBHOOKS)` for both counters. */
  function Total(history: map<string, Counters>, items: seq<Entry>): Counters
    requires NamesIn(history, items)
    decreases |items|
  {
    if items == [] then Zero else Add(history[items[0].name], Total(history, items[1..]))
  }

  /** The general report: sent, and the aggregate recorded, only when the totals changed. */
  function Report(s: State, items: seq<Entry>): (r: State)
    requires NamesIn(s.history, items)
    ensures r.history == s.history && r.lastSent == s.lastSent && r.reportFired == s.reportFired
  {
    var total := Total(s.history, items);
    if total != s.lastReportTotal then
      s.(lastReportTotal := total,
         outbox := s.outbox + [Delivery(ReportWebhook, GeneralReport(total.leads, total.wins))])
    else
      s
  }

  // ---------------------------------------------------------------------------
  // The report schedule of one cycle

  /** A report time is due when the clock reads it exactly and its flag is down. */
  predicate Due(s: State, t: string, now: string)
    requires t in s.reportFired
  {
    now == t && !s.reportFired[t]
  }

  /**
   * The second loop of a cycle: each due report time sends the general
   * report and raises its flag, whether or not a message went out.
   */
  function FireDue(s: State, times: seq<string>, now: string, items: seq<Entry>): (r: State)
    requires HasFlags(s, times) && NamesIn(s.history, items)
    ensures r.history == s.history && r.lastSent == s.lastSent
    ensures r.reportFired.Keys == s.reportFired.Keys
    ensures forall t | t in s.reportFired :: r.reportFired[t] == (s.reportFired[t] || (t in times && now == t))
    decreases |times|
  {
    if times == [] then s
    else
      var t := times[0];
      var s1 := if Due(s, t, now) then Report(s, items).(reportFired := s.reportFired[t := true]) else s;
      assert forall u | u in times :: u == t || u in times[1..];
      FireDue(s1, times[1..], now, items)
  }

  /** The daily reset: at exactly midnight every flag goes down. */
  function ResetFlags(s: State, now: string): (r: State)
    ensures r.reportFired.Keys == s.reportFired.Keys
    ensures now == Midnight ==> forall t | t in r.reportFired :: !r.reportFired[t]
    ensures now != Midnight ==> r == s
    ensures r.(reportFired := s.reportFired) == s
  {
    if now == Midnight then s.(reportFired := map t | t in s.reportFired :: false) else s
  }

  /**
   * One pass of `main`'s loop body at clock reading `now`: process every
   * active influencer, then fire the due reports, then the midnight reset.
   */
  function Cycle(s: State, items: seq<Entry>, now: string, fetch: string -> FetchOutcome): (r: Run)
    requires Covers(s, items) && HasFlags(s, ReportTimes)
    ensures Covers(r.state, items) && HasFlags(r.state, ReportTimes)
    ensures r.state.history.Keys == s.history.Keys && r.state.lastSent.Keys == s.lastSent.Keys
    ensures r.state.reportFired.Keys == s.reportFired.Keys
    ensures r.Halted? <==> ProcessAll(s, items, fetch).Halted?
  {
    var p := ProcessAll(s, items, fetch);
    if p.Halted? then p
    else Running(ResetFlags(FireDue(p.state, ReportTimes, now, items), now))
  }

  /** One tick of the loop: the clock reading and what each fetch returns. */
  datatype Tick = Tick(now: string, fetch: string -> FetchOutcome)

  /** A finite run of `main`'s loop, stopping early if the process ended. */
  function Cycles(s: State, items: seq<Entry>, ticks: seq<Tick>): (r: Run)
    requires Covers(s, items) && HasFlags(s, ReportTimes)
    ensures Covers(r.state, items) && HasFlags(r.state, ReportTimes)
    ensures r.state.history.Keys == s.history.Keys && r.state.lastSent.Keys == s.lastSent.Keys
    ensures r.state.reportFired.Keys == s.reportFired.Keys
    decreases |ticks|
  {
    if ticks == [] then Running(s)
    else
      var r := Cycle(s, items, ticks[0].now, ticks[0].fetch);
      if r.Halted? then r else Cycles(r.state, items, ticks[1..])
  }

  /** The number of cycles of a run in which report time `t` was due. */
  function Firings(s: State, items: seq<Entry>, ticks: seq<Tick>, t: string): nat
    requires Covers(s, items) && HasFlags(s, ReportTimes) && t in s.reportFired
    decreases |ticks|
  {
    if ticks == [] then 0
    else
      var r := Cycle(s, items, ticks[0].now, ticks[0].fetch);
      if r.Halted? then 0
      else (if Due(s, t, ticks[0].now) then 1 else 0) + Firings(r.state, items, ticks[1..], t)
  }
}
