/** One run of the outreach loop (main.py:88-156) as a state machine over the
    target rows, and the properties of the bookkeeping it does: the processed
    store, the outcome log and the per-run counter. */
module Run {
  import opened Wrappers
  import opened ProfilePage

  /** Constants.CONNECTION_LIMIT (main.py:29). */
  const ConnectionLimit: nat := 1

  /** A row of the target list together with what the browser does on its page. */
  datatype Target = Target(url: Url, note: string, page: Page)

  /** One row of connection_log.csv. */
  datatype LogEntry = LogEntry(url: Url, status: Status)

  /** The two persisted files: processed_profiles.csv (`None` while it does
      not exist) and connection_log.csv. */
  datatype Disk = Disk(processedFile: Option<seq<Url>>, connectionLog: seq<LogEntry>)

  /** Why the loop is not (or no longer) going: still running, stopped by the
      limit check at line 93, or ended by an exception neither handler catches. */
  datatype Halt = Running | LimitReached | Aborted(exc: Exc)

  /** The state of a run: the in-memory processed table (rebound at line 147),
      the two files, the counter `connections_sent` and whether the loop ended. */
  datatype RunState = RunState(memory: seq<Url>, disk: Disk, sent: nat, halt: Halt)

  /** load_processed_profiles (main.py:77-81): the stored URLs, or none when
      the file is absent. */
  function LoadProcessed(file: Option<seq<Url>>): seq<Url>
  {
    match file
    case None => []
    case Some(urls) => urls
  }

  /** One iteration of the loop at line 92, for the row `t`. */
  function Advance(s: RunState, t: Target, limit: nat): RunState
  {
    if s.sent >= limit then s.(halt := LimitReached)
    else if t.url in s.memory then s
    else match Resolve(t.page)
      case NoEffect => s
      case LogOnly(status) =>
        s.(disk := s.disk.(connectionLog := s.disk.connectionLog + [LogEntry(t.url, status)]))
      case LogAndMark(status) =>
        var memory := s.memory + [t.url];
        RunState(memory, Disk(Some(memory), s.disk.connectionLog + [LogEntry(t.url, status)]), s.sent + 1, s.halt)
      case Uncaught(e) => s.(halt := Aborted(e))
  }

  /** The loop from state `s` over the remaining rows `targets`. */
  function RunFrom(s: RunState, targets: seq<Target>, limit: nat): RunState
    decreases |targets|
  {
    if |targets| == 0 || !s.halt.Running? then s
    else RunFrom(Advance(s, targets[0], limit), targets[1..], limit)
  }

  /** The state send_connection_request starts in. */
  function Start(processed: seq<Url>, disk: Disk): RunState
  {
    RunState(processed, disk, 0, Running)
  }

  /** scheduled_task (main.py:159-161): reload the store, then run the loop. */
  function ScheduledRun(disk: Disk, targets: seq<Target>, limit: nat): RunState
  {
    RunFrom(Start(LoadProcessed(disk.processedFile), disk), targets, limit)
  }

  /** `f` applied to each element of `xs`, in order. */
  function MapSeq<A, B>(xs: seq<A>, f: A -> B): seq<B>
  {
    seq(|xs|, i requires 0 <= i < |xs| => f(xs[i]))
  }

  /** The URLs of the log rows, in order. */
  function Urls(log: seq<LogEntry>): seq<Url>
  {
    MapSeq(log, (e: LogEntry) => e.url)
  }

  /** The URLs of the target rows, in order. */
  function TargetUrls(targets: seq<Target>): seq<Url>
  {
    MapSeq(targets, (t: Target) => t.url)
  }

  /** `xs` is `ys` with some elements left out, the rest kept in order. */
  predicate IsSubsequence(xs: seq<Url>, ys: seq<Url>)
    decreases |ys|
  {
    |xs| == 0 ||
    (|ys| > 0 && ((xs[0] == ys[0] && IsSubsequence(xs[1..], ys[1..])) || IsSubsequence(xs, ys[1..])))
  }

  /** Number of log rows that record a sent request. */
  function CountSent(log: seq<LogEntry>): nat
  {
    if |log| == 0 then 0
    else CountSent(log[..|log| - 1]) + (if log[|log| - 1].status == Skipped then 0 else 1)
  }

  ghost predicate NoDuplicates(urls: seq<Url>)
  {
    forall i, j :: 0 <= i < j < |urls| ==> urls[i] != urls[j]
  }

  // ---------------------------------------------------------------------------
  // One row

  /** The check at line 93 stops the loop before the row is looked at. */
  lemma LimitStopsRun(s: RunState, targets: seq<Target>, limit: nat)
    requires s.halt.Running? && |targets| > 0 && s.sent >= limit
    ensures RunFrom(s, targets, limit) == s.(halt := LimitReached)
  {
  }

  /** A row whose URL is already processed changes nothing (line 100). */
  lemma ProcessedRowChangesNothing(s: RunState, t: Target, limit: nat)
    requires s.sent < limit && t.url in s.memory
    ensures Advance(s, t, limit) == s
  {
  }

  /** Once a Connect span was clicked and no exception escaped, the row adds
      exactly one log row with its URL, marks the URL, rewrites the store with
      the new table and counts one more connection (lines 112-152). */
  lemma ClickedRowIsMarked(s: RunState, t: Target, limit: nat)
    requires s.sent < limit && t.url !in s.memory
    requires ClickedSpan(t.page).Some? && ClickedSpan(t.page).value.click.Completed?
    requires HandledInside(ClickedSpan(t.page).value)
    ensures var r := Advance(s, t, limit);
      r.disk.connectionLog == s.disk.connectionLog + [LogEntry(t.url, ClickOutcome(ClickedSpan(t.page).value).status)] &&
      r.memory == s.memory + [t.url] && r.disk.processedFile == Some(r.memory) &&
      r.sent == s.sent + 1 && r.halt == s.halt
  {
    MarkedIffClickHandled(t.page);
  }

  /** A span lookup that timed out (or found no element) logs "Skipped" and
      leaves the URL unmarked and the counter as it was (lines 111, 154-156). */
  lemma LookupFailureLogsOnly(s: RunState, t: Target, limit: nat)
    requires s.sent < limit && t.url !in s.memory
    requires t.page.Loaded? && t.page.lookup.LookupRaised? && OuterCatches(t.page.lookup.exc)
    ensures var r := Advance(s, t, limit);
      r.disk.connectionLog == s.disk.connectionLog + [LogEntry(t.url, Skipped)] &&
      r.memory == s.memory && r.disk.processedFile == s.disk.processedFile && r.sent == s.sent && r.halt == s.halt
  {
  }

  /** A page whose spans all lack "Connect" leaves no trace (lines 112-113). */
  lemma NoConnectSpanChangesNothing(s: RunState, t: Target, limit: nat)
    requires s.sent < limit && t.page.Loaded? && t.page.lookup.SpansFound? && ClickedSpan(t.page).None?
    ensures Advance(s, t, limit) == s
  {
    NoEffectIffNoConnectSpan(t.page);
  }

  // ---------------------------------------------------------------------------
  // A whole run

  /** The counter rises by one per marked URL and never past the limit; the
      processed table only grows, by appending; the store file is either
      untouched or holds the final table; the log is only appended to. */
  lemma {:induction false} RunBookkeeping(s: RunState, targets: seq<Target>, limit: nat)
    requires s.sent <= limit
    ensures var r := RunFrom(s, targets, limit);
      s.sent <= r.sent <= limit &&
      |r.memory| == |s.memory| + (r.sent - s.sent) &&
      s.memory <= r.memory &&
      s.disk.connectionLog <= r.disk.connectionLog &&
      (r.sent == s.sent ==> r.disk.processedFile == s.disk.processedFile) &&
      (r.sent > s.sent ==> r.disk.processedFile == Some(r.memory))
    decreases |targets|
  {
    if |targets| > 0 && s.halt.Running? {
      var s' := Advance(s, targets[0], limit);
      RunBookkeeping(s', targets[1..], limit);
      var r := RunFrom(s', targets[1..], limit);
      if r.sent == s'.sent {
        assert r.memory == r.memory[..|s'.memory|] == s'.memory;
      }
    }
  }

  /** Every URL appended to the processed table was absent from it just
      before (the check at line 100 precedes the append at line 147). */
  lemma {:induction false} MarksAreFresh(s: RunState, targets: seq<Target>, limit: nat)
    requires s.sent <= limit
    ensures var r := RunFrom(s, targets, limit);
      |s.memory| <= |r.memory| &&
      forall k :: |s.memory| <= k < |r.memory| ==> r.memory[k] !in r.memory[..k]
    decreases |targets|
  {
    if |targets| > 0 && s.halt.Running? {
      var s' := Advance(s, targets[0], limit);
      var r := RunFrom(s', targets[1..], limit);
      MarksAreFresh(s', targets[1..], limit);
      RunBookkeeping(s', targets[1..], limit);
      if |s'.memory| > |s.memory| {
        var k := |s.memory|;
        assert r.memory[..k] == s.memory && r.memory[k] == targets[0].url;
      }
    }
  }

  /** A processed table without duplicates stays without duplicates, however
      many rows repeat a URL. */
  lemma RunKeepsNoDuplicates(s: RunState, targets: seq<Target>, limit: nat)
    requires s.sent <= limit && NoDuplicates(s.memory)
    ensures NoDuplicates(RunFrom(s, targets, limit).memory)
  {
    var r := RunFrom(s, targets, limit);
    MarksAreFresh(s, targets, limit);
    RunBookkeeping(s, targets, limit);
    forall i, j | 0 <= i < j < |r.memory| ensures r.memory[i] != r.memory[j] {
      if j >= |s.memory| {
        assert r.memory[i] in r.memory[..j];
      } else {
        assert r.memory[i] == s.memory[i] && r.memory[j] == s.memory[j];
      }
    }
  }

  /** No row of this run is logged for a URL that was processed when the run
      reached it, so in particular for none processed at its start. */
  lemma {:induction false} NoLogForProcessed(s: RunState, targets: seq<Target>, limit: nat)
    requires s.sent <= limit
    ensures var r := RunFrom(s, targets, limit);
      |s.disk.connectionLog| <= |r.disk.connectionLog| &&
      forall k :: |s.disk.connectionLog| <= k < |r.disk.connectionLog| ==> r.disk.connectionLog[k].url !in s.memory
    decreases |targets|
  {
    if |targets| > 0 && s.halt.Running? {
      var s' := Advance(s, targets[0], limit);
      NoLogForProcessed(s', targets[1..], limit);
      RunBookkeeping(s', targets[1..], limit);
      RunBookkeeping(s, targets, limit);
      var r := RunFrom(s', targets[1..], limit);
      forall k | |s.disk.connectionLog| <= k < |r.disk.connectionLog|
        ensures r.disk.connectionLog[k].url !in s.memory
      {
        if k < |s'.disk.connectionLog| {
          assert r.disk.connectionLog[k] == s'.disk.connectionLog[k];
        } else {
          assert r.disk.connectionLog[k].url !in s'.memory;
        }
      }
    }
  }

  /** The log rows a run adds name rows of the input, at most one per row and
      in input order. */
  lemma {:induction false} LogFollowsInput(s: RunState, targets: seq<Target>, limit: nat)
    requires s.sent <= limit
    ensures var r := RunFrom(s, targets, limit);
      s.disk.connectionLog <= r.disk.connectionLog &&
      IsSubsequence(Urls(r.disk.connectionLog[|s.disk.connectionLog|..]), TargetUrls(targets))
    decreases |targets|
  {
    RunBookkeeping(s, targets, limit);
    var r := RunFrom(s, targets, limit);
    if |targets| > 0 && s.halt.Running? {
      var s' := Advance(s, targets[0], limit);
      LogFollowsInput(s', targets[1..], limit);
      RunBookkeeping(s', targets[1..], limit);
      var rest := Urls(r.disk.connectionLog[|s'.disk.connectionLog|..]);
      var all := Urls(r.disk.connectionLog[|s.disk.connectionLog|..]);
      assert TargetUrls(targets)[1..] == TargetUrls(targets[1..]);
      if |s'.disk.connectionLog| == |s.disk.connectionLog| {
        assert all == rest;
      } else {
        assert |s'.disk.connectionLog| == |s.disk.connectionLog| + 1;
        assert all == [targets[0].url] + rest;
        assert all[1..] == rest;
      }
    } else {
      assert r.disk.connectionLog[|s.disk.connectionLog|..] == [];
    }
  }

  /** Each log row written with a success status belongs to a marked URL, so a
      run logs at most as many successes as it counts connections. */
  lemma {:induction false} SuccessesAreCounted(s: RunState, targets: seq<Target>, limit: nat)
    requires s.sent <= limit
    ensures var r := RunFrom(s, targets, limit);
      s.sent <= r.sent && CountSent(r.disk.connectionLog) <= CountSent(s.disk.connectionLog) + (r.sent - s.sent)
    decreases |targets|
  {
    if |targets| > 0 && s.halt.Running? {
      var s' := Advance(s, targets[0], limit);
      SuccessesAreCounted(s', targets[1..], limit);
      var log := s.disk.connectionLog;
      if |s'.disk.connectionLog| != |log| {
        var e := s'.disk.connectionLog[|log|];
        assert s'.disk.connectionLog == log + [e];
        assert (log + [e])[..|log|] == log;
        LogOnlyIsSkipped(targets[0].page);
      }
    }
  }

  /** The run-limit property: a run that starts from a zero counter sends, and
      logs as sent, at most `limit` connection requests, and marks at most
      `limit` URLs. */
  lemma RunWithinLimit(processed: seq<Url>, disk: Disk, targets: seq<Target>, limit: nat)
    ensures var r := RunFrom(Start(processed, disk), targets, limit);
      r.sent <= limit && |r.memory| <= |processed| + limit &&
      CountSent(r.disk.connectionLog) <= CountSent(disk.connectionLog) + limit
  {
    RunBookkeeping(Start(processed, disk), targets, limit);
    SuccessesAreCounted(Start(processed, disk), targets, limit);
  }

  // ---------------------------------------------------------------------------
  // The scheduled task

  /** Across a scheduled run the stored URLs are kept, in order, and only
      added to; a store without duplicates stays so; and the run logs nothing
      for a URL that was stored when it began. */
  lemma ScheduledRunKeepsStore(disk: Disk, targets: seq<Target>, limit: nat)
    ensures var after := ScheduledRun(disk, targets, limit).disk;
      LoadProcessed(disk.processedFile) <= LoadProcessed(after.processedFile) &&
      (NoDuplicates(LoadProcessed(disk.processedFile)) ==> NoDuplicates(LoadProcessed(after.processedFile))) &&
      disk.connectionLog <= after.connectionLog &&
      forall k :: |disk.connectionLog| <= k < |after.connectionLog| ==>
        after.connectionLog[k].url !in LoadProcessed(disk.processedFile)
  {
    var s := Start(LoadProcessed(disk.processedFile), disk);
    RunBookkeeping(s, targets, limit);
    NoLogForProcessed(s, targets, limit);
    if NoDuplicates(s.memory) {
      RunKeepsNoDuplicates(s, targets, limit);
    }
  }

  /** Loading the store after a scheduled run gives back exactly the table the
      run ended with: the run either never wrote the file, and then its table is
      the one it loaded, or last wrote it with its final table (line 148). */
  lemma ReloadSeesFinalTable(disk: Disk, targets: seq<Target>, limit: nat)
    ensures var r := ScheduledRun(disk, targets, limit);
      LoadProcessed(r.disk.processedFile) == r.memory
  {
    var s := Start(LoadProcessed(disk.processedFile), disk);
    RunBookkeeping(s, targets, limit);
    var r := RunFrom(s, targets, limit);
    if r.sent == s.sent {
      assert r.memory == r.memory[..|s.memory|] == s.memory;
    }
  }
}
