/** The daily restart: run_schedule fires scheduled_task once a day
    (main.py:159-168). Each day reloads the store and runs the loop over that
    day's view of the target rows. */
module Schedule {
  import opened ProfilePage
  import opened Run

  /** The files after one scheduled run per element of `days`. An exception
      that escapes a run also escapes run_schedule's loop, which has no
      handler, so no later day runs. */
  function Days(disk: Disk, days: seq<seq<Target>>, limit: nat): Disk
    decreases |days|
  {
    if |days| == 0 then disk
    else
      var r := ScheduledRun(disk, days[0], limit);
      if r.halt.Aborted? then r.disk else Days(r.disk, days[1..], limit)
  }

  /** No double send: a URL in the store stays there on every later day, and
      no later day writes a log row for it. */
  lemma {:induction false} ProcessedNeverRetried(disk: Disk, days: seq<seq<Target>>, limit: nat, u: Url)
    requires u in LoadProcessed(disk.processedFile)
    ensures var after := Days(disk, days, limit);
      u in LoadProcessed(after.processedFile) &&
      disk.connectionLog <= after.connectionLog &&
      forall k :: |disk.connectionLog| <= k < |after.connectionLog| ==> after.connectionLog[k].url != u
    decreases |days|
  {
    if |days| > 0 {
      var r := ScheduledRun(disk, days[0], limit);
      ScheduledRunKeepsStore(disk, days[0], limit);
      var p0 := LoadProcessed(disk.processedFile);
      assert p0 <= LoadProcessed(r.disk.processedFile);
      assert u in LoadProcessed(r.disk.processedFile);
      if !r.halt.Aborted? {
        ProcessedNeverRetried(r.disk, days[1..], limit, u);
        var after := Days(r.disk, days[1..], limit);
        forall k | |disk.connectionLog| <= k < |after.connectionLog|
          ensures after.connectionLog[k].url != u
        {
          if k < |r.disk.connectionLog| {
            assert after.connectionLog[k] == r.disk.connectionLog[k];
          }
        }
      }
    }
  }

  /** Dedup monotonicity across days: the stored URLs are only ever added to,
      and a store without duplicates never gets one. */
  lemma {:induction false} StoreGrowsAcrossDays(disk: Disk, days: seq<seq<Target>>, limit: nat)
    ensures var after := Days(disk, days, limit);
      LoadProcessed(disk.processedFile) <= LoadProcessed(after.processedFile) &&
      (NoDuplicates(LoadProcessed(disk.processedFile)) ==> NoDuplicates(LoadProcessed(after.processedFile)))
    decreases |days|
  {
    if |days| > 0 {
      var r := ScheduledRun(disk, days[0], limit);
      ScheduledRunKeepsStore(disk, days[0], limit);
      if !r.halt.Aborted? {
        StoreGrowsAcrossDays(r.disk, days[1..], limit);
      }
    }
  }
}
