/**
 * What the monitor's bookkeeping guarantees: when a message goes out, what
 * it shows, that the two per-name maps stay equal, that repeating a step
 * changes nothing, and that a report time fires once until the midnight
 * reset.
 */
module BookkeepingProps {

  import opened Json
  import opened Decimal
  import opened Wrappers
  import opened Bookkeeping

  // ---------------------------------------------------------------------------
  // process_influencer

  /** A failed request, or a summary Python finds false, leaves everything as it was. */
  lemma EmptySummaryIsNoOp(s: State, name: string, webhook: string, response: FetchOutcome)
    requires name in s.history && name in s.lastSent
    requires !Truthy(SelectSummary(response))
    ensures Process(s, name, webhook, response) == Running(s)
  {
  }

  /** Only a summary whose "data" list has a first element can change anything. */
  lemma OnlyDataItemCounts(s: State, name: string, webhook: string, response: FetchOutcome)
    requires name in s.history && name in s.lastSent
    requires !HasDataItem(response)
    ensures Process(s, name, webhook, response) == Running(s)
  {
  }

  /** The exceptions `main` does not catch change nothing before they end the process. */
  lemma CrashChangesNothing(s: State, name: string, webhook: string, response: FetchOutcome)
    requires name in s.history && name in s.lastSent
    ensures Process(s, name, webhook, response).Halted? ==> Process(s, name, webhook, response).state == s
    ensures Process(s, name, webhook, response).Halted? <==> ReadSummary(SelectSummary(response)).Crash?
  {
  }

  /**
   * A message goes out exactly when the fetched counters differ from the
   * last notified ones, and it is the update for those counters with deltas
   * against the last fetched ones.
   */
  lemma NotifiesIffChanged(s: State, name: string, webhook: string, response: FetchOutcome)
    requires name in s.history && name in s.lastSent
    ensures var reading := ReadSummary(SelectSummary(response));
            var r := Process(s, name, webhook, response);
            && (r.state.outbox != s.outbox <==> reading.Read? && reading.counters != s.lastSent[name])
            && (r.state.outbox == s.outbox
                || r.state.outbox == s.outbox + [Delivery(webhook, UpdateMessage(name, reading.counters, s.history[name]))])
  {
  }

  /**
   * After a readable summary both maps hold the fetched counters for `name`
   * (whether or not the send succeeded), and no other name changes.
   */
  lemma ProcessRecordsCounters(s: State, name: string, webhook: string, response: FetchOutcome, other: string)
    requires name in s.history && name in s.lastSent
    requires ReadSummary(SelectSummary(response)).Read?
    requires other != name
    ensures var c := ReadSummary(SelectSummary(response)).counters;
            var r := Process(s, name, webhook, response);
            && r.Running?
            && r.state.history[name] == c && r.state.lastSent[name] == c
            && (other in s.history ==> r.state.history[other] == s.history[other])
            && (other in s.lastSent ==> r.state.lastSent[other] == s.lastSent[other])
  {
  }

  /** Processing the same response twice in a row: the second call changes nothing. */
  lemma ProcessTwiceIsNoOp(s: State, name: string, webhook: string, response: FetchOutcome)
    requires name in s.history && name in s.lastSent
    ensures var r := Process(s, name, webhook, response);
            r.Running? ==> Process(r.state, name, webhook, response) == r
  {
  }

  /** Processing the same response twice in a row sends at most one message. */
  lemma ProcessTwiceSendsAtMostOnce(s: State, name: string, webhook: string, response: FetchOutcome)
    requires name in s.history && name in s.lastSent
    ensures var r := Process(s, name, webhook, response);
            r.Running? ==> |Process(r.state, name, webhook, response).state.outbox| <= |s.outbox| + 1
  {
  }

  /** The `( +N)` annotation appears iff the delta N is positive, and shows N in decimal. */
  lemma AnnotationShowsGain(d: int)
    ensures Annotation(d) != "" <==> d > 0
    ensures d > 0 ==>
              var a := Annotation(d);
              && |a| >= 5 && a[..3] == "( +" && a[|a| - 1] == ')'
              && ParseNat(a[3..|a| - 1]) == Some(d)
  {
    if d > 0 {
      var a := Annotation(d);
      assert a[3..|a| - 1] == NatToString(d);
      ParseNatString(d);
    }
  }

  /**
   * An update shows the fetched counters; each carries `( +d)` exactly when
   * its delta against the last fetched value is positive.
   */
  lemma UpdateShowsPositiveDeltas(name: string, now: Counters, prev: Counters)
    ensures var m := UpdateMessage(name, now, prev);
            && m.Update? && m.name == name && m.leads == now.leads && m.wins == now.wins
            && (m.leadsNote != "" <==> now.leads - prev.leads > 0)
            && (m.winsNote != "" <==> now.wins - prev.wins > 0)
            && (now.leads > prev.leads ==> ParseNat(m.leadsNote[3..|m.leadsNote| - 1]) == Some(now.leads - prev.leads))
            && (now.wins > prev.wins ==> ParseNat(m.winsNote[3..|m.winsNote| - 1]) == Some(now.wins - prev.wins))
  {
    AnnotationShowsGain(now.leads - prev.leads);
    AnnotationShowsGain(now.wins - prev.wins);
  }

  // ---------------------------------------------------------------------------
  // The two per-name maps agree

  /** HISTORICO and ULTIMO_ENVIADO hold the same counters for every configured name. */
  predicate Agree(s: State, items: seq<Entry>) {
    && Covers(s, items)
    && forall i | 0 <= i < |items| :: s.history[items[i].name] == s.lastSent[items[i].name]
  }

  lemma InitialAgrees(items: seq<Entry>)
    ensures Agree(Initial(items), items)
  {
  }

  /** When the maps agree, a message goes out exactly when the delta is non-zero. */
  lemma AgreedNotifyIffDelta(s: State, items: seq<Entry>, k: nat, response: FetchOutcome)
    requires Agree(s, items) && k < |items|
    ensures var reading := ReadSummary(SelectSummary(response));
            var name := items[k].name;
            Process(s, name, items[k].webhook, response).state.outbox != s.outbox
            <==> reading.Read? && reading.counters != s.history[name]
  {
  }

  lemma ProcessKeepsAgreement(s: State, items: seq<Entry>, name: string, webhook: string, response: FetchOutcome)
    requires Agree(s, items) && name in s.history && name in s.lastSent
    ensures Agree(Process(s, name, webhook, response).state, items)
  {
  }

  lemma {:induction false} ProcessAllKeepsAgreement(s: State, items: seq<Entry>, all: seq<Entry>, fetch: string -> FetchOutcome)
    requires Agree(s, all) && Covers(s, items)
    ensures Agree(ProcessAll(s, items, fetch).state, all)
    decreases |items|
  {
    if items != [] {
      var e := items[0];
      var r := if e.webhook != "" then Process(s, e.name, e.webhook, fetch(e.name)) else Running(s);
      if e.webhook != "" {
        ProcessKeepsAgreement(s, all, e.name, e.webhook, fetch(e.name));
      }
      if r.Running? {
        assert Covers(r.state, items[1..]);
        ProcessAllKeepsAgreement(r.state, items[1..], all, fetch);
      }
    }
  }

  /** A name that no entry gives a non-empty webhook is never touched by processing. */
  lemma {:induction false} ProcessAllLeavesInactive(s: State, items: seq<Entry>, fetch: string -> FetchOutcome, name: string)
    requires Covers(s, items) && !Active(items, name)
    ensures var r := ProcessAll(s, items, fetch).state;
            && (name in s.history ==> r.history[name] == s.history[name])
            && (name in s.lastSent ==> r.lastSent[name] == s.lastSent[name])
    decreases |items|
  {
    if items != [] {
      var e := items[0];
      assert e.webhook != "" ==> e.name != name;
      var r := if e.webhook != "" then Process(s, e.name, e.webhook, fetch(e.name)) else Running(s);
      if r.Running? {
        assert !Active(items[1..], name) by {
          forall i | 0 <= i < |items| - 1
            ensures !(items[1..][i].name == name && items[1..][i].webhook != "")
          {
            assert items[1..][i] == items[i + 1];
          }
        }
        ProcessAllLeavesInactive(r.state, items[1..], fetch, name);
      }
    }
  }

  // ---------------------------------------------------------------------------
  // enviar_relatorio_geral

  /** The total of an all-zero history is zero. */
  lemma {:induction false} TotalOfZeros(history: map<string, Counters>, items: seq<Entry>)
    requires NamesIn(history, items)
    requires forall n | n in history :: history[n] == Zero
    ensures Total(history, items) == Zero
    decreases |items|
  {
    if items != [] {
      var rest := items[1..];
      assert NamesIn(history, rest) by {
        forall i | 0 <= i < |rest| ensures rest[i].name in history {
          assert rest[i] == items[i + 1];
        }
      }
      TotalOfZeros(history, rest);
      assert items[0].name in history;
    }
  }

  /**
   * Once the loop has run, a name with a non-empty webhook whose summary
   * was readable holds the fetched counters in both maps.
   */
  lemma {:induction false} ProcessAllRecordsActive(s: State, items: seq<Entry>, fetch: string -> FetchOutcome, k: nat)
    requires Covers(s, items) && DistinctNames(items) && k < |items|
    requires items[k].webhook != ""
    requires ReadSummary(SelectSummary(fetch(items[k].name))).Read?
    ensures var c := ReadSummary(SelectSummary(fetch(items[k].name))).counters;
            var r := ProcessAll(s, items, fetch);
            r.Running? ==> r.state.history[items[k].name] == c && r.state.lastSent[items[k].name] == c
    decreases |items|
  {
    var e := items[0];
    var rest := items[1..];
    var r := if e.webhook != "" then Process(s, e.name, e.webhook, fetch(e.name)) else Running(s);
    if r.Running? {
      assert Covers(r.state, rest) by {
        forall i | 0 <= i < |rest| ensures rest[i].name in r.state.history && rest[i].name in r.state.lastSent {
          assert rest[i] == items[i + 1];
        }
      }
      if k == 0 {
        assert !Active(rest, e.name) by {
          forall i | 0 <= i < |rest| ensures rest[i].name != e.name {
            assert rest[i] == items[i + 1];
          }
        }
        ProcessAllLeavesInactive(r.state, rest, fetch, e.name);
      } else {
        assert DistinctNames(rest) by {
          forall i, j | 0 <= i < j < |rest| ensures rest[i].name != rest[j].name {
            assert rest[i] == items[i + 1] && rest[j] == items[j + 1];
          }
        }
        assert rest[k - 1] == items[k];
        ProcessAllRecordsActive(r.state, rest, fetch, k - 1);
      }
    }
  }

  /**
   * The influencer loop ends the process exactly when some entry with a
   * non-empty webhook has a summary that cannot be read; otherwise it runs
   * to its end.
   */
  lemma {:induction false} ProcessAllHaltsIff(s: State, items: seq<Entry>, fetch: string -> FetchOutcome)
    requires Covers(s, items)
    ensures ProcessAll(s, items, fetch).Halted? <==> exists k | 0 <= k < |items| :: CrashAt(items, fetch, k)
    decreases |items|
  {
    if items != [] {
      var e := items[0];
      var rest := items[1..];
      var r := if e.webhook != "" then Process(s, e.name, e.webhook, fetch(e.name)) else Running(s);
      if e.webhook != "" {
        CrashChangesNothing(s, e.name, e.webhook, fetch(e.name));
      }
      if r.Halted? {
        assert CrashAt(items, fetch, 0);
      } else {
        assert !CrashAt(items, fetch, 0);
        assert Covers(r.state, rest);
        ProcessAllHaltsIff(r.state, rest, fetch);
        if exists k | 0 <= k < |items| :: CrashAt(items, fetch, k) {
          var k :| 0 <= k < |items| && CrashAt(items, fetch, k);
          assert k > 0 && rest[k - 1] == items[k];
          assert CrashAt(rest, fetch, k - 1);
        }
        if exists k | 0 <= k < |rest| :: CrashAt(rest, fetch, k) {
          var k :| 0 <= k < |rest| && CrashAt(rest, fetch, k);
          assert rest[k] == items[k + 1];
          assert CrashAt(items, fetch, k + 1);
        }
      }
    }
  }

  /** A pass of `main`'s loop ends the process exactly when the influencer loop raises. */
  lemma CycleHaltsIff(s: State, items: seq<Entry>, now: string, fetch: string -> FetchOutcome)
    requires Covers(s, items) && HasFlags(s, ReportTimes)
    ensures Cycle(s, items, now, fetch).Halted? <==> exists k | 0 <= k < |items| :: CrashAt(items, fetch, k)
  {
    ProcessAllHaltsIff(s, items, fetch);
  }

  /** The updates of a loop depend only on the entries of the names it visits. */
  lemma {:induction false} SendsIgnoresOther(s: State, t: State, items: seq<Entry>, fetch: string -> FetchOutcome)
    requires Covers(s, items) && Covers(t, items)
    requires forall i | 0 <= i < |items| ::
               && s.history[items[i].name] == t.history[items[i].name]
               && s.lastSent[items[i].name] == t.lastSent[items[i].name]
    ensures Sends(s, items, fetch) == Sends(t, items, fetch)
    decreases |items|
  {
    if items != [] {
      var rest := items[1..];
      forall i | 0 <= i < |rest|
        ensures s.history[rest[i].name] == t.history[rest[i].name]
        ensures s.lastSent[rest[i].name] == t.lastSent[rest[i].name]
      {
        assert rest[i] == items[i + 1];
      }
      SendsIgnoresOther(s, t, rest, fetch);
    }
  }

  /**
   * One step of the influencer loop appends exactly the entry's own
   * `EntrySend` and leaves every other name's counters alone.
   */
  lemma StepSends(s: State, e: Entry, fetch: string -> FetchOutcome)
    requires e.name in s.history && e.name in s.lastSent
    ensures var r := if e.webhook != "" then Process(s, e.name, e.webhook, fetch(e.name)) else Running(s);
            r.Running? ==>
              && r.state.outbox == s.outbox + EntrySend(s, e, fetch)
              && (forall n | n in s.history && n != e.name :: r.state.history[n] == s.history[n])
              && (forall n | n in s.lastSent && n != e.name :: r.state.lastSent[n] == s.lastSent[n])
  {
    if e.webhook != "" {
      NotifiesIffChanged(s, e.name, e.webhook, fetch(e.name));
    }
  }

  /**
   * The influencer loop, when it runs to the end, sends exactly `Sends`:
   * for each entry in order, the update of an active name whose readable
   * counters differ from the last notified ones, and nothing else.
   */
  lemma {:induction false} ProcessAllSends(s: State, items: seq<Entry>, fetch: string -> FetchOutcome)
    requires Covers(s, items) && DistinctNames(items)
    ensures var r := ProcessAll(s, items, fetch);
            r.Running? ==> r.state.outbox == s.outbox + Sends(s, items, fetch)
    decreases |items|
  {
    if items != [] {
      var e := items[0];
      var rest := items[1..];
      var r := if e.webhook != "" then Process(s, e.name, e.webhook, fetch(e.name)) else Running(s);
      if r.Running? {
        StepSends(s, e, fetch);
        assert Covers(r.state, rest) && Covers(s, rest) && DistinctNames(rest) by {
          forall i | 0 <= i < |rest|
            ensures rest[i].name in r.state.history && rest[i].name in r.state.lastSent
            ensures rest[i].name in s.history && rest[i].name in s.lastSent
          {
            assert rest[i] == items[i + 1];
          }
          forall i, j | 0 <= i < j < |rest| ensures rest[i].name != rest[j].name {
            assert rest[i] == items[i + 1] && rest[j] == items[j + 1];
          }
        }
        forall i | 0 <= i < |rest|
          ensures r.state.history[rest[i].name] == s.history[rest[i].name]
          ensures r.state.lastSent[rest[i].name] == s.lastSent[rest[i].name]
        {
          assert rest[i] == items[i + 1];
        }
        SendsIgnoresOther(r.state, s, rest, fetch);
        ProcessAllSends(r.state, rest, fetch);
        assert Sends(s, items, fetch) == EntrySend(s, e, fetch) + Sends(s, rest, fetch);
      }
    }
  }

  /**
   * The total counts every configured name once: changing one name's
   * counters moves the total by exactly that change, and changing a name
   * outside the configuration does not move it.
   */
  lemma {:induction false} TotalAfterUpdate(history: map<string, Counters>, items: seq<Entry>, name: string, c: Counters)
    requires NamesIn(history, items) && DistinctNames(items) && name in history
    ensures NamesIn(history[name := c], items)
    ensures var before := Total(history, items);
            var after := Total(history[name := c], items);
            if name in NameSet(items) then
              after == Counters(before.leads + c.leads - history[name].leads, before.wins + c.wins - history[name].wins)
            else
              after == before
    decreases |items|
  {
    if items != [] {
      var rest := items[1..];
      assert DistinctNames(rest) by {
        forall i, j | 0 <= i < j < |rest| ensures rest[i].name != rest[j].name {
          assert rest[i] == items[i + 1] && rest[j] == items[j + 1];
        }
      }
      assert NamesIn(history, rest) by {
        forall i | 0 <= i < |rest| ensures rest[i].name in history {
          assert rest[i] == items[i + 1];
        }
      }
      TotalAfterUpdate(history, rest, name, c);
      if items[0].name == name {
        assert name !in NameSet(rest) by {
          forall i | 0 <= i < |rest| ensures rest[i].name != name {
            assert rest[i] == items[i + 1];
          }
        }
      } else {
        assert name in NameSet(items) <==> name in NameSet(rest) by {
          if name in NameSet(items) {
            var k :| 0 <= k < |items| && items[k].name == name;
            assert rest[k - 1] == items[k];
          }
          if name in NameSet(rest) {
            var k :| 0 <= k < |rest| && rest[k].name == name;
            assert items[k + 1] == rest[k];
          }
        }
      }
    }
  }

  /** The report goes out exactly when the totals differ from the last reported ones. */
  lemma ReportSendsIffChanged(s: State, items: seq<Entry>)
    requires NamesIn(s.history, items)
    ensures var total := Total(s.history, items);
            var r := Report(s, items);
            && (r.outbox != s.outbox <==> total != s.lastReportTotal)
            && (total != s.lastReportTotal ==>
                  r.outbox == s.outbox + [Delivery(ReportWebhook, GeneralReport(total.leads, total.wins))])
            && r.lastReportTotal == total
  {
  }

  /** A second report right after the first sends nothing. */
  lemma ReportTwiceIsNoOp(s: State, items: seq<Entry>)
    requires NamesIn(s.history, items)
    ensures Report(Report(s, items), items) == Report(s, items)
  {
  }

  // ---------------------------------------------------------------------------
  // The report schedule

  /** With no report time due, the report loop changes nothing at all. */
  lemma {:induction false} NothingDueNoChange(s: State, times: seq<string>, now: string, items: seq<Entry>)
    requires HasFlags(s, times) && NamesIn(s.history, items)
    requires forall i | 0 <= i < |times| :: !Due(s, times[i], now)
    ensures FireDue(s, times, now, items) == s
    decreases |times|
  {
    if times != [] {
      NothingDueNoChange(s, times[1..], now, items);
    }
  }

  /**
   * A due report time sends the report exactly as `enviar_relatorio_geral`
   * would, and raises its flag whether or not a message went out.
   */
  lemma DueFiresReport(s: State, now: string, items: seq<Entry>)
    requires HasFlags(s, ReportTimes) && NamesIn(s.history, items)
    requires now in ReportTimes && !s.reportFired[now]
    ensures var r := FireDue(s, ReportTimes, now, items);
            && r.outbox == Report(s, items).outbox
            && r.lastReportTotal == Report(s, items).lastReportTotal
            && r.reportFired[now]
  {
  }


  /**
   * At midnight the flags are cleared after the report loop has run: what the
   * loop sent stays sent, and every flag ends down.
   */
  lemma MidnightResetFollowsDueChecks(s: State, items: seq<Entry>, fetch: string -> FetchOutcome)
    requires Covers(s, items) && HasFlags(s, ReportTimes)
    ensures var p := ProcessAll(s, items, fetch);
            var r := Cycle(s, items, Midnight, fetch);
            r.Running? ==>
              && r.state.outbox == FireDue(p.state, ReportTimes, Midnight, items).outbox
              && forall t | t in r.state.reportFired :: !r.state.reportFired[t]
  {
  }

  /** Away from midnight a flag is up after a cycle iff it was up before or its time is now. */
  lemma CycleFlag(s: State, items: seq<Entry>, now: string, fetch: string -> FetchOutcome, t: string)
    requires Covers(s, items) && HasFlags(s, ReportTimes) && t in s.reportFired
    requires now != Midnight
    ensures var r := Cycle(s, items, now, fetch);
            r.Running? ==> r.state.reportFired[t] == (s.reportFired[t] || (t in ReportTimes && now == t))
  {
  }

  /** A raised flag stays raised, and its time never fires, until a cycle at midnight. */
  lemma {:induction false} RaisedFlagNeverFires(s: State, items: seq<Entry>, ticks: seq<Tick>, t: string)
    requires Covers(s, items) && HasFlags(s, ReportTimes) && t in s.reportFired
    requires s.reportFired[t]
    requires forall i | 0 <= i < |ticks| :: ticks[i].now != Midnight
    ensures Firings(s, items, ticks, t) == 0
    decreases |ticks|
  {
    if ticks != [] {
      var r := Cycle(s, items, ticks[0].now, ticks[0].fetch);
      if r.Running? {
        CycleFlag(s, items, ticks[0].now, ticks[0].fetch, t);
        RaisedFlagNeverFires(r.state, items, ticks[1..], t);
      }
    }
  }

  /** Between two midnights every report time fires at most once. */
  lemma {:induction false} FiresAtMostOnceUntilMidnight(s: State, items: seq<Entry>, ticks: seq<Tick>, t: string)
    requires Covers(s, items) && HasFlags(s, ReportTimes) && t in s.reportFired && t in ReportTimes
    requires forall i | 0 <= i < |ticks| :: ticks[i].now != Midnight
    ensures Firings(s, items, ticks, t) <= 1
    decreases |ticks|
  {
    if ticks != [] {
      var r := Cycle(s, items, ticks[0].now, ticks[0].fetch);
      if r.Running? {
        CycleFlag(s, items, ticks[0].now, ticks[0].fetch, t);
        if Due(s, t, ticks[0].now) {
          RaisedFlagNeverFires(r.state, items, ticks[1..], t);
        } else {
          FiresAtMostOnceUntilMidnight(r.state, items, ticks[1..], t);
        }
      }
    }
  }

  // ---------------------------------------------------------------------------
  // Whole runs

  lemma CycleKeepsAgreement(s: State, items: seq<Entry>, now: string, fetch: string -> FetchOutcome)
    requires Agree(s, items) && HasFlags(s, ReportTimes)
    ensures Agree(Cycle(s, items, now, fetch).state, items)
  {
    ProcessAllKeepsAgreement(s, items, items, fetch);
  }

  /** From any state where the two maps agree, they still agree after any run. */
  lemma {:induction false} CyclesKeepAgreement(s: State, items: seq<Entry>, ticks: seq<Tick>)
    requires Agree(s, items) && HasFlags(s, ReportTimes)
    ensures Agree(Cycles(s, items, ticks).state, items)
    decreases |ticks|
  {
    if ticks != [] {
      var r := Cycle(s, items, ticks[0].now, ticks[0].fetch);
      CycleKeepsAgreement(s, items, ticks[0].now, ticks[0].fetch);
      if r.Running? {
        CyclesKeepAgreement(r.state, items, ticks[1..]);
      }
    }
  }

  /** A name configured only with empty webhooks keeps the counters it had for the whole run. */
  lemma {:induction false} InactiveStaysZero(s: State, items: seq<Entry>, ticks: seq<Tick>, name: string)
    requires Covers(s, items) && HasFlags(s, ReportTimes)
    requires !Active(items, name) && name in s.history && name in s.lastSent
    ensures var r := Cycles(s, items, ticks).state;
            r.history[name] == s.history[name] && r.lastSent[name] == s.lastSent[name]
    decreases |ticks|
  {
    if ticks != [] {
      var r := Cycle(s, items, ticks[0].now, ticks[0].fetch);
      ProcessAllLeavesInactive(s, items, ticks[0].fetch, name);
      if r.Running? {
        InactiveStaysZero(r.state, items, ticks[1..], name);
      }
    }
  }

  /** Starting from the state the module is loaded with, the two maps agree after any run. */
  lemma RunsFromStartAgree(items: seq<Entry>, ticks: seq<Tick>)
    ensures Agree(Cycles(Initial(items), items, ticks).state, items)
  {
    InitialAgrees(items);
    CyclesKeepAgreement(Initial(items), items, ticks);
  }

  /**
   * A configured name with only empty webhooks is never processed, so it
   * adds zero to every general report of a run from the start.
   */
  lemma InactiveNameStaysZeroFromStart(items: seq<Entry>, ticks: seq<Tick>, k: nat)
    requires k < |items| && !Active(items, items[k].name)
    ensures var r := Cycles(Initial(items), items, ticks).state;
            r.history[items[k].name] == Zero && r.lastSent[items[k].name] == Zero
  {
    var name := items[k].name;
    assert name in NameSet(items);
    InactiveStaysZero(Initial(items), items, ticks, name);
  }

  /** The first report of a run whose counters never moved sends nothing. */
  lemma InitialReportIsSilent(items: seq<Entry>)
    ensures Report(Initial(items), items) == Initial(items)
  {
    TotalOfZeros(Initial(items).history, items);
  }
}
