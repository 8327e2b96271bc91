/** The persisted files and the operations of main.py that change them:
    load_processed_profiles, save_processed_profiles, log_result,
    send_connection_request and scheduled_task (main.py:74-161). */
module Bot {
  import opened Wrappers
  import opened ProfilePage
  import opened Run

  /** processed_profiles.csv (`None` while absent) and connection_log.csv. */
  class Store {
    var processedFile: Option<seq<Url>>
    var connectionLog: seq<LogEntry>

    constructor (processedFile: Option<seq<Url>>, connectionLog: seq<LogEntry>)
      ensures this.processedFile == processedFile && this.connectionLog == connectionLog
    {
      this.processedFile := processedFile;
      this.connectionLog := connectionLog;
    }

    function Contents(): Disk
      reads this
    {
      Disk(processedFile, connectionLog)
    }

    /** load_processed_profiles (main.py:77-81). */
    method LoadProcessedProfiles() returns (processed: seq<Url>)
      ensures processed == LoadProcessed(processedFile)
    {
      if processedFile.Some? {
        processed := processedFile.value;
      } else {
        processed := [];
      }
    }

    /** save_processed_profiles (main.py:74-75): overwrite the store file. */
    method SaveProcessedProfiles(processed: seq<Url>)
      modifies this
      ensures processedFile == Some(processed) && connectionLog == old(connectionLog)
    {
      processedFile := Some(processed);
    }

    /** log_result (main.py:83-86): append one row to the log file. */
    method LogResult(url: Url, status: Status)
      modifies this
      ensures connectionLog == old(connectionLog) + [LogEntry(url, status)]
      ensures processedFile == old(processedFile)
    {
      connectionLog := connectionLog + [LogEntry(url, status)];
    }

    /** send_connection_request (main.py:88-156). Returns the final state of the
        run: the rebound processed table, the counter and why the loop ended. */
    method SendConnectionRequest(targets: seq<Target>, processed: seq<Url>) returns (final: RunState)
      modifies this
      ensures final == RunFrom(Start(processed, old(Contents())), targets, ConnectionLimit)
      ensures Contents() == final.disk
    {
      ghost var start := Start(processed, Contents());
      var memory := processed;
      var sent: nat := 0;
      var i := 0;
      while i < |targets|
        invariant 0 <= i <= |targets|
        invariant RunFrom(RunState(memory, Contents(), sent, Running), targets[i..], ConnectionLimit)
          == RunFrom(start, targets, ConnectionLimit)
      {
        ghost var before := RunState(memory, Contents(), sent, Running);
        assert targets[i..][0] == targets[i] && targets[i..][1..] == targets[i + 1..];
        if sent >= ConnectionLimit {
          return RunState(memory, Contents(), sent, LimitReached);
        }
        var t := targets[i];
        if t.url in memory {
          i := i + 1;
          continue;
        }
        var effect := VisitProfile(t.page);
        match effect {
          case NoEffect =>
          case LogOnly(status) =>
            LogResult(t.url, status);
          case LogAndMark(status) =>
            LogResult(t.url, status);
            memory := memory + [t.url];
            SaveProcessedProfiles(memory);
            sent := sent + 1;
          case Uncaught(e) =>
            return RunState(memory, Contents(), sent, Aborted(e));
        }
        assert RunState(memory, Contents(), sent, Running) == Advance(before, t, ConnectionLimit);
        i := i + 1;
      }
      final := RunState(memory, Contents(), sent, Running);
    }

    /** scheduled_task (main.py:159-161). */
    method ScheduledTask(targets: seq<Target>) returns (final: RunState)
      modifies this
      ensures final == ScheduledRun(old(Contents()), targets, ConnectionLimit)
      ensures Contents() == final.disk
    {
      var processed := LoadProcessedProfiles();
      final := SendConnectionRequest(targets, processed);
    }
  }
}
