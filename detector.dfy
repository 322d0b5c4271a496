/** The novelty detector of bot.js (`checkPromoCodes`, bot.js:120-152) and
    the `setchannel` command's write (bot.js:168) over the two module-level
    variables `alertChannel` and `lastNewestCode` (bot.js:16-17). */
module Detector {
  import opened Wrappers
  import opened Extractor

  /** A message the bot would post: the channel it goes to and the code. */
  datatype Alert = Alert(channel: string, code: string)

  /** `alertChannel` is truthy: set, and not the empty string. */
  predicate IsSet(channel: Option<string>) {
    channel.Some? && channel.value != ""
  }

  /** The new `lastNewestCode` after one check, and the alert it sends. */
  datatype Observation = Observation(lastNewestCode: Option<string>, alert: Option<Alert>)

  /** One check of the time-limited list against the code seen last
      (bot.js:123-151). An alert only ever names the code that is now the
      tracked one, which differs from the code tracked before, and goes to
      the configured channel; an empty list and a first observation never
      alert. */
  function Step(last: Option<string>, channel: Option<string>, timeLimited: seq<CodeRecord>): (o: Observation)
    ensures timeLimited == [] ==> o == Observation(last, None)
    ensures last.None? && timeLimited != [] ==> o == Observation(Some(timeLimited[0].code), None)
    ensures timeLimited != [] && timeLimited[0].code != "" ==> o.lastNewestCode == Some(timeLimited[0].code)
    ensures timeLimited != [] && timeLimited[0].code == "" && last.Some? ==> o == Observation(last, None)
    ensures IsSet(channel) && last.Some? && o.alert.None? ==> o.lastNewestCode == last
    ensures timeLimited != [] && last == Some(timeLimited[0].code) ==> o == Observation(last, None)
    ensures o.alert.Some? ==>
      && IsSet(channel) && o.alert.value.channel == channel.value
      && o.lastNewestCode == Some(o.alert.value.code)
      && last.Some? && last != o.lastNewestCode
  {
    if timeLimited == [] then Observation(last, None)
    else
      var newest := timeLimited[0].code;
      if last.None? then Observation(Some(newest), None)
      else if newest != "" && Some(newest) != last then
        Observation(Some(newest), if IsSet(channel) then Some(Alert(channel.value, newest)) else None)
      else Observation(last, None)
  }

  /** The state the bot keeps between checks. */
  class PromoWatcher {
    var alertChannel: Option<string>
    var lastNewestCode: Option<string>

    /** Both variables start out `null`. */
    constructor ()
      ensures alertChannel == None && lastNewestCode == None
    {
      alertChannel := None;
      lastNewestCode := None;
    }

    /** The `setchannel` command (bot.js:168). */
    method SetChannel(channelId: string)
      modifies this
      ensures alertChannel == Some(channelId)
      ensures lastNewestCode == old(lastNewestCode)
    {
      alertChannel := Some(channelId);
    }

    /** The detection part of `checkPromoCodes` (bot.js:123-151), given the
        extracted time-limited list. Returns the alert it would send. */
    method Observe(timeLimited: seq<CodeRecord>) returns (alert: Option<Alert>)
      modifies this
      ensures alertChannel == old(alertChannel)
      ensures Observation(lastNewestCode, alert) == Step(old(lastNewestCode), old(alertChannel), timeLimited)
    {
      alert := None;
      if |timeLimited| == 0 {
        return;
      }
      var newest := timeLimited[0].code;
      if lastNewestCode.None? {
        lastNewestCode := Some(newest);
        return;
      }
      if newest != "" && Some(newest) != lastNewestCode {
        lastNewestCode := Some(newest);
        if !IsSet(alertChannel) {
          return;
        }
        alert := Some(Alert(alertChannel.value, newest));
      }
    }

    /** `checkPromoCodes` (bot.js:120-152): scrape, then observe. */
    method CheckPromoCodes(page: Page) returns (alert: Option<Alert>)
      modifies this
      ensures alertChannel == old(alertChannel)
      ensures Observation(lastNewestCode, alert) == Step(old(lastNewestCode), old(alertChannel), Scrape(page).timeLimited)
    {
      var result := ScrapePromoCodes(page);
      alert := Observe(result.timeLimited);
    }
  }

  // ---------------------------------------------------------------------
  // Properties of one check

  /** An alert is sent exactly when the tracked code is set, the newest code
      is non-empty and differs from it, and the channel is set; it names the
      newest code. */
  lemma AlertIff(last: Option<string>, channel: Option<string>, timeLimited: seq<CodeRecord>)
    ensures Step(last, channel, timeLimited).alert.Some? <==>
      && timeLimited != [] && last.Some? && timeLimited[0].code != ""
      && last != Some(timeLimited[0].code) && IsSet(channel)
    ensures Step(last, channel, timeLimited).alert.Some? ==>
      Step(last, channel, timeLimited).alert.value == Alert(channel.value, timeLimited[0].code)
  {
  }

  /** The tracked code advances whether or not a channel is set: delivery
      never decides the new state. */
  lemma StateIndependentOfChannel(last: Option<string>, channel: Option<string>, timeLimited: seq<CodeRecord>)
    ensures Step(last, channel, timeLimited).lastNewestCode == Step(last, None, timeLimited).lastNewestCode
  {
  }

  /** Observing the same list twice in a row: the second check changes
      nothing and sends nothing. */
  lemma ObserveTwice(last: Option<string>, channel: Option<string>, timeLimited: seq<CodeRecord>)
    ensures var o := Step(last, channel, timeLimited);
      Step(o.lastNewestCode, channel, timeLimited) == Observation(o.lastNewestCode, None)
  {
  }

  // ---------------------------------------------------------------------
  // Runs of checks

  /** The tracked code and the alerts after a run of checks with a fixed channel. */
  datatype History = History(lastNewestCode: Option<string>, alerts: seq<Alert>)

  function Run(last: Option<string>, channel: Option<string>, polls: seq<seq<CodeRecord>>): (h: History)
    ensures |h.alerts| <= |polls|
  {
    if polls == [] then History(last, [])
    else
      var before := Run(last, channel, polls[..|polls| - 1]);
      var o := Step(before.lastNewestCode, channel, polls[|polls| - 1]);
      History(o.lastNewestCode, before.alerts + match o.alert { case Some(a) => [a] case None => [] })
  }

  /** A run of empty lists leaves the tracked code alone. */
  lemma {:induction false} RunOfEmptyLists(last: Option<string>, channel: Option<string>, polls: seq<seq<CodeRecord>>)
    requires forall k :: 0 <= k < |polls| ==> polls[k] == []
    ensures Run(last, channel, polls) == History(last, [])
  {
    if polls != [] {
      RunOfEmptyLists(last, channel, polls[..|polls| - 1]);
    }
  }

  /** After a run the tracked code is the newest code of the last non-empty
      list, when that code is non-empty, as every scraped code is. */
  lemma {:induction false} RunTracksNewest(last: Option<string>, channel: Option<string>, polls: seq<seq<CodeRecord>>, k: int)
    requires 0 <= k < |polls| && polls[k] != [] && polls[k][0].code != ""
    requires forall j :: k < j < |polls| ==> polls[j] == []
    ensures Run(last, channel, polls).lastNewestCode == Some(polls[k][0].code)
    decreases |polls|
  {
    var n := |polls|;
    var init := polls[..n - 1];
    if k < n - 1 {
      assert polls[n - 1] == [];
      assert forall m :: 0 <= m < n - 1 ==> init[m] == polls[m];
      RunTracksNewest(last, channel, init, k);
    }
  }

  /** No code is announced twice in a row: consecutive alerts name different
      codes, and the last alert names the tracked code. */
  lemma {:induction false} RunNoRepeatedAlert(last: Option<string>, channel: Option<string>, polls: seq<seq<CodeRecord>>)
    ensures Run(last, channel, polls).alerts != [] ==> IsSet(channel)
    ensures var h := Run(last, channel, polls);
      h.alerts != [] ==> h.lastNewestCode == Some(h.alerts[|h.alerts| - 1].code)
    ensures var h := Run(last, channel, polls);
      forall k :: 0 <= k < |h.alerts| - 1 ==> h.alerts[k].code != h.alerts[k + 1].code
  {
    if polls != [] {
      var n := |polls|;
      RunNoRepeatedAlert(last, channel, polls[..n - 1]);
      var before := Run(last, channel, polls[..n - 1]);
      var o := Step(before.lastNewestCode, channel, polls[n - 1]);
      var h := Run(last, channel, polls);
      match o.alert {
        case None =>
          assert h.alerts == before.alerts;
        case Some(a) =>
          assert h.alerts == before.alerts + [a];
          if before.alerts != [] {
            var m := |before.alerts|;
            assert h.alerts[m - 1] == before.alerts[m - 1];
            assert h.alerts[m] == a;
          }
          assert forall k :: 0 <= k < |before.alerts| ==> h.alerts[k] == before.alerts[k];
      }
    }
  }

  /** A run that starts unset never alerts on its first check. */
  lemma FirstCheckIsBaseline(channel: Option<string>, timeLimited: seq<CodeRecord>)
    ensures Run(None, channel, [timeLimited]).alerts == []
    ensures timeLimited != [] ==> Run(None, channel, [timeLimited]).lastNewestCode == Some(timeLimited[0].code)
  {
    assert [timeLimited][..0] == [];
  }

  /** Codes that come out of the scraper are never empty, so for them the
      `newest &&` guard of bot.js:133 always holds. */
  lemma ScrapedCodesNonEmpty(page: Page)
    ensures forall k :: 0 <= k < |Scrape(page).timeLimited| ==> Scrape(page).timeLimited[k].code != ""
  {
  }

  /** A failed fetch leaves the detector as it was and sends nothing. */
  lemma FetchFailureIsNoOp(last: Option<string>, channel: Option<string>)
    ensures Step(last, channel, Scrape(FetchFailed).timeLimited) == Observation(last, None)
  {
  }
}
