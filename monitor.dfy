/**
 * The monitor as the program keeps it: four dictionaries updated in place
 * by `process_influencer`, `enviar_relatorio_geral` and the body of `main`'s
 * loop, with the sends appended to an output log. Each method is proved to
 * leave the state the matching function of module Bookkeeping computes.
 */
module Monitor {

  import opened Json
  import opened Bookkeeping

  class Monitor {
    /** WEBHOOKS: name to webhook URL, in the order of webhooks.json. */
    const webhooks: seq<Entry>

    var history: map<string, Counters>          // HISTORICO
    var lastSent: map<string, Counters>         // ULTIMO_ENVIADO
    var reportFired: map<string, bool>          // RELATORIO_ENVIADO
    var lastReportTotal: Counters               // RELATORIO_ULTIMO_TOTAL
    var outbox: seq<Delivery>                   // calls of send_to_discord

    /** The dictionaries hold exactly the configured names and report times. */
    ghost predicate Valid()
      reads this
    {
      && DistinctNames(webhooks)
      && history.Keys == NameSet(webhooks)
      && lastSent.Keys == NameSet(webhooks)
      && reportFired.Keys == set t | t in ReportTimes
    }

    /** The dictionaries as one value. */
    function Abstract(): State
      reads this
    {
      State(history, lastSent, reportFired, lastReportTotal, outbox)
    }

    lemma ValidShape()
      requires Valid()
      ensures Covers(Abstract(), webhooks) && HasFlags(Abstract(), ReportTimes)
    {
    }

    /** The state built when the module is loaded (lines 13-28). */
    constructor (config: seq<Entry>)
      requires DistinctNames(config)
      ensures Valid()
      ensures webhooks == config && Abstract() == Initial(config)
    {
      webhooks := config;
      var zeros := map n | n in NameSet(config) :: Zero;
      history := zeros;
      lastSent := zeros;
      reportFired := map t | t in ReportTimes :: false;
      lastReportTotal := Zero;
      outbox := [];
    }

    /**
     * `process_influencer(name, webhook)`, given what the request for
     * `name` returned. `crashed` tells that an exception escaped it.
     */
    method ProcessInfluencer(name: string, webhook: string, response: FetchOutcome) returns (crashed: bool)
      requires Valid() && name in history
      modifies this
      ensures Valid()
      ensures var r := Process(old(Abstract()), name, webhook, response);
              crashed == r.Halted? && Abstract() == r.state
    {
      var resumo := SelectSummary(response);
      var reading := ReadSummary(resumo);
      if reading.Skip? {
        return false;
      }
      if reading.Crash? {
        return true;
      }
      var current := reading.counters;
      var previous := history[name];
      var notified := lastSent[name];
      history := history[name := current];
      if current.leads != notified.leads || current.wins != notified.wins {
        outbox := outbox + [Delivery(webhook, UpdateMessage(name, current, previous))];
        lastSent := lastSent[name := current];
      }
      crashed := false;
    }

    /** `enviar_relatorio_geral()`. */
    method SendGeneralReport()
      requires Valid()
      modifies this
      ensures Valid()
      ensures Abstract() == Report(old(Abstract()), webhooks)
    {
      ValidShape();
      var total := Total(history, webhooks);
      if total.leads != lastReportTotal.leads || total.wins != lastReportTotal.wins {
        outbox := outbox + [Delivery(ReportWebhook, GeneralReport(total.leads, total.wins))];
        lastReportTotal := total;
      }
    }

    /**
     * The first loop of `main`'s body: `process_influencer` for every entry
     * whose webhook is non-empty, in order. `halted` tells that an exception
     * escaped one of them and ended the process.
     */
    method ProcessInfluencers(fetch: string -> FetchOutcome) returns (halted: bool)
      requires Valid()
      modifies this
      ensures Valid()
      ensures var r := ProcessAll(old(Abstract()), webhooks, fetch);
              halted == r.Halted? && Abstract() == r.state
    {
      ValidShape();
      ghost var start := Abstract();
      var i := 0;
      while i < |webhooks|
        invariant 0 <= i <= |webhooks|
        invariant Valid()
        invariant ProcessAll(start, webhooks, fetch) == ProcessAll(Abstract(), webhooks[i..], fetch)
      {
        ValidShape();
        var entry := webhooks[i];
        assert webhooks[i..][0] == entry && webhooks[i..][1..] == webhooks[i + 1..];
        if entry.webhook != "" {
          var crashed := ProcessInfluencer(entry.name, entry.webhook, fetch(entry.name));
          if crashed {
            return true;
          }
        }
        i := i + 1;
      }
      halted := false;
    }

    /** The second loop: each report time that reads `now` and has not fired yet fires. */
    method FireDueReports(now: string)
      requires Valid()
      modifies this
      ensures Valid()
      ensures Abstract() == FireDue(old(Abstract()), ReportTimes, now, webhooks)
    {
      ValidShape();
      ghost var start := Abstract();
      var j := 0;
      while j < |ReportTimes|
        invariant 0 <= j <= |ReportTimes|
        invariant Valid()
        invariant FireDue(start, ReportTimes, now, webhooks) == FireDue(Abstract(), ReportTimes[j..], now, webhooks)
      {
        ValidShape();
        var time := ReportTimes[j];
        assert ReportTimes[j..][0] == time && ReportTimes[j..][1..] == ReportTimes[j + 1..];
        if now == time && !reportFired[time] {
          SendGeneralReport();
          reportFired := reportFired[time := true];
        }
        j := j + 1;
      }
    }

    /** The daily reset: at "00:00" every flag of RELATORIO_ENVIADO goes down. */
    method ResetDailyFlags(now: string)
      requires Valid()
      modifies this
      ensures Valid()
      ensures Abstract() == ResetFlags(old(Abstract()), now)
    {
      if now == Midnight {
        ghost var before := reportFired;
        var k := 0;
        while k < |ReportTimes|
          invariant 0 <= k <= |ReportTimes|
          invariant Valid()
          invariant Abstract().(reportFired := before) == old(Abstract())
          invariant forall t | t in reportFired :: reportFired[t] == (before[t] && t !in ReportTimes[..k])
        {
          assert ReportTimes[..k + 1] == ReportTimes[..k] + [ReportTimes[k]];
          reportFired := reportFired[ReportTimes[k] := false];
          k := k + 1;
        }
        assert ReportTimes[..k] == ReportTimes;
      }
    }

    /**
     * One pass of the body of `main`'s loop with the clock reading `now`
     * ("HH:MM") and the requests answering as `fetch` says: influencers,
     * then due reports, then the midnight reset. `halted` tells that an
     * exception ended the process during the pass.
     */
    method RunCycle(now: string, fetch: string -> FetchOutcome) returns (halted: bool)
      requires Valid()
      modifies this
      ensures Valid()
      ensures var r := Cycle(old(Abstract()), webhooks, now, fetch);
              halted == r.Halted? && Abstract() == r.state
    {
      ValidShape();
      halted := ProcessInfluencers(fetch);
      if halted {
        return;
      }
      FireDueReports(now);
      ResetDailyFlags(now);
    }
  }
}
