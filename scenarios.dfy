/** Concrete runs that show what the bookkeeping does on small inputs,
    including the places where the code departs from a first reading: a
    lookup failure is logged but not marked, and a duplicate row is filtered
    only once its URL has been marked. */
module Scenarios {
  import opened Wrappers
  import opened ProfilePage
  import opened Run
  import opened Schedule

  /** A page with one "Connect" span whose click goes through. */
  function OneConnectPage(notePath: Action, sendNow: Action): Page
  {
    Loaded(SpansFound([Span("Connect", Completed, notePath, sendNow)]))
  }

  /** The one span of such a page is the one the loop clicks. */
  lemma OneConnectPageClicks(notePath: Action, sendNow: Action)
    ensures Resolve(OneConnectPage(notePath, sendNow)) == ClickOutcome(Span("Connect", Completed, notePath, sendNow))
  {
  }

  /** Both files absent or empty: the first run. */
  function FirstRun(): Disk
  {
    Disk(None, [])
  }

  lemma NoteSentScenario()
    ensures var r := ScheduledRun(FirstRun(), [Target("A", "Hi", OneConnectPage(Completed, Completed))], ConnectionLimit);
      r.disk == Disk(Some(["A"]), [LogEntry("A", SuccessWithNote)]) && r.sent == 1
  {
    var t := Target("A", "Hi", OneConnectPage(Completed, Completed));
    OneConnectPageClicks(Completed, Completed);
    var s0 := Start([], FirstRun());
    var s1 := Advance(s0, t, ConnectionLimit);
    assert s1.memory == ["A"] && s1.sent == 1 && s1.halt == Running;
    assert s1.disk.processedFile == Some(["A"]) && s1.disk.connectionLog == [LogEntry("A", SuccessWithNote)];
    assert s1 == RunState(["A"], Disk(Some(["A"]), [LogEntry("A", SuccessWithNote)]), 1, Running);
    assert [t][1..] == [];
    assert ScheduledRun(FirstRun(), [t], ConnectionLimit) == RunFrom(s1, [], ConnectionLimit);
  }

  /** The note path fails but "Send now" works: logged as sent without a note. */
  lemma FallbackScenario()
    ensures var r := ScheduledRun(FirstRun(), [Target("A", "Hi", OneConnectPage(Raised(Timeout), Completed))], ConnectionLimit);
      r.disk == Disk(Some(["A"]), [LogEntry("A", SuccessWithoutNote)]) && r.sent == 1
  {
    var t := Target("A", "Hi", OneConnectPage(Raised(Timeout), Completed));
    OneConnectPageClicks(Raised(Timeout), Completed);
    var s1 := Advance(Start([], FirstRun()), t, ConnectionLimit);
    assert s1.memory == ["A"] && s1.sent == 1 && s1.halt == Running;
    assert s1.disk.processedFile == Some(["A"]) && s1.disk.connectionLog == [LogEntry("A", SuccessWithoutNote)];
    assert s1 == RunState(["A"], Disk(Some(["A"]), [LogEntry("A", SuccessWithoutNote)]), 1, Running);
    assert [t][1..] == [];
    assert ScheduledRun(FirstRun(), [t], ConnectionLimit) == RunFrom(s1, [], ConnectionLimit);
  }

  /** Both send paths fail after the click: logged as skipped, yet marked and counted. */
  lemma ClickedSkipScenario()
    ensures var r := ScheduledRun(FirstRun(), [Target("A", "Hi", OneConnectPage(Raised(ClickIntercepted), Raised(Timeout)))], ConnectionLimit);
      r.disk == Disk(Some(["A"]), [LogEntry("A", Skipped)]) && r.sent == 1
  {
    var t := Target("A", "Hi", OneConnectPage(Raised(ClickIntercepted), Raised(Timeout)));
    OneConnectPageClicks(Raised(ClickIntercepted), Raised(Timeout));
    var s1 := Advance(Start([], FirstRun()), t, ConnectionLimit);
    assert s1.memory == ["A"] && s1.sent == 1 && s1.halt == Running;
    assert s1.disk.processedFile == Some(["A"]) && s1.disk.connectionLog == [LogEntry("A", Skipped)];
    assert s1 == RunState(["A"], Disk(Some(["A"]), [LogEntry("A", Skipped)]), 1, Running);
    assert [t][1..] == [];
    assert ScheduledRun(FirstRun(), [t], ConnectionLimit) == RunFrom(s1, [], ConnectionLimit);
  }

  /** The span lookup times out: logged as skipped, the store is not written,
      and the next day tries the profile again. */
  lemma LookupTimeoutScenario()
    ensures var day1 := [Target("B", "", Loaded(LookupRaised(Timeout)))];
      var day2 := [Target("B", "", OneConnectPage(Completed, Completed))];
      ScheduledRun(FirstRun(), day1, ConnectionLimit).disk == Disk(None, [LogEntry("B", Skipped)]) &&
      Days(FirstRun(), [day1, day2], ConnectionLimit) == Disk(Some(["B"]), [LogEntry("B", Skipped), LogEntry("B", SuccessWithNote)])
  {
    var t1 := Target("B", "", Loaded(LookupRaised(Timeout)));
    var t2 := Target("B", "", OneConnectPage(Completed, Completed));
    OneConnectPageClicks(Completed, Completed);
    var s1 := Advance(Start([], FirstRun()), t1, ConnectionLimit);
    assert s1.memory == [] && s1.sent == 0 && s1.halt == Running;
    assert s1.disk.processedFile == None && s1.disk.connectionLog == [LogEntry("B", Skipped)];
    assert s1 == RunState([], Disk(None, [LogEntry("B", Skipped)]), 0, Running);
    var days: seq<seq<Target>> := [[t1], [t2]];
    assert [t1][1..] == [] && [t2][1..] == [] && days[1..] == [[t2]] && days[1..][1..] == [];
    assert ScheduledRun(FirstRun(), [t1], ConnectionLimit) == RunFrom(s1, [], ConnectionLimit) == s1;
    var s2 := Advance(Start([], s1.disk), t2, ConnectionLimit);
    assert s2.memory == ["B"];
    assert s2.disk.processedFile == Some(["B"]) && s2.disk.connectionLog == [LogEntry("B", Skipped), LogEntry("B", SuccessWithNote)];
    assert ScheduledRun(s1.disk, [t2], ConnectionLimit) == RunFrom(s2, [], ConnectionLimit) == s2;
    assert Days(FirstRun(), days, ConnectionLimit) == Days(s1.disk, [[t2]], ConnectionLimit) == Days(s2.disk, [], ConnectionLimit);
  }

  /** With a limit of one, the second of two good rows waits for the next day. */
  lemma LimitOneScenario()
    ensures var rows := [Target("A", "", OneConnectPage(Completed, Completed)), Target("B", "", OneConnectPage(Completed, Completed))];
      var r := ScheduledRun(FirstRun(), rows, 1);
      r.disk == Disk(Some(["A"]), [LogEntry("A", SuccessWithNote)]) && r.halt == LimitReached &&
      Days(FirstRun(), [rows, rows], 1) == Disk(Some(["A", "B"]), [LogEntry("A", SuccessWithNote), LogEntry("B", SuccessWithNote)])
  {
    var tA := Target("A", "", OneConnectPage(Completed, Completed));
    var tB := Target("B", "", OneConnectPage(Completed, Completed));
    var rows := [tA, tB];
    OneConnectPageClicks(Completed, Completed);
    var days: seq<seq<Target>> := [rows, rows];
    assert rows[1..] == [tB] && [tB][1..] == [] && days[1..] == [rows] && days[1..][1..] == [];
    var s1 := Advance(Start([], FirstRun()), tA, 1);
    assert s1.memory == ["A"] && s1.sent == 1 && s1.halt == Running;
    assert s1.disk.processedFile == Some(["A"]) && s1.disk.connectionLog == [LogEntry("A", SuccessWithNote)];
    assert s1 == RunState(["A"], Disk(Some(["A"]), [LogEntry("A", SuccessWithNote)]), 1, Running);
    var s2 := Advance(s1, tB, 1);
    assert s2 == s1.(halt := LimitReached);
    assert ScheduledRun(FirstRun(), rows, 1) == RunFrom(s1, [tB], 1) == RunFrom(s2, [], 1) == s2;
    var d := Start(["A"], s2.disk);
    assert Advance(d, tA, 1) == d;
    var d2 := Advance(d, tB, 1);
    assert d2.memory == ["A", "B"] && d2.sent == 1 && d2.halt == Running;
    assert d2.disk.processedFile == Some(["A", "B"]) && d2.disk.connectionLog == [LogEntry("A", SuccessWithNote), LogEntry("B", SuccessWithNote)];
    assert d2 == RunState(["A", "B"], Disk(Some(["A", "B"]), [LogEntry("A", SuccessWithNote), LogEntry("B", SuccessWithNote)]), 1, Running);
    assert ScheduledRun(s2.disk, rows, 1) == RunFrom(d, [tB], 1) == RunFrom(d2, [], 1) == d2;
    assert Days(FirstRun(), days, 1) == Days(s2.disk, [rows], 1) == Days(d2.disk, [], 1);
  }

  /** A repeated row whose first copy was marked is filtered within the run. */
  lemma DuplicateMarkedScenario()
    ensures var row := Target("D", "", OneConnectPage(Completed, Completed));
      var r := ScheduledRun(FirstRun(), [row, row], 2);
      r.disk == Disk(Some(["D"]), [LogEntry("D", SuccessWithNote)]) && r.sent == 1
  {
    var row := Target("D", "", OneConnectPage(Completed, Completed));
    OneConnectPageClicks(Completed, Completed);
    assert [row, row][1..] == [row] && [row][1..] == [];
    var s1 := Advance(Start([], FirstRun()), row, 2);
    assert s1.memory == ["D"] && s1.sent == 1 && s1.halt == Running;
    assert s1.disk.processedFile == Some(["D"]) && s1.disk.connectionLog == [LogEntry("D", SuccessWithNote)];
    assert s1 == RunState(["D"], Disk(Some(["D"]), [LogEntry("D", SuccessWithNote)]), 1, Running);
    assert Advance(s1, row, 2) == s1;
    assert ScheduledRun(FirstRun(), [row, row], 2) == RunFrom(s1, [row], 2) == RunFrom(s1, [], 2);
  }

  /** A repeated row whose first copy only failed the lookup is visited again
      in the same run, so the log gets two rows for one URL. */
  lemma DuplicateTimeoutScenario()
    ensures var row := Target("C", "", Loaded(LookupRaised(Timeout)));
      ScheduledRun(FirstRun(), [row, row], ConnectionLimit).disk == Disk(None, [LogEntry("C", Skipped), LogEntry("C", Skipped)])
  {
  }

  /** Spans without "Connect" in their text: nothing is logged or stored. */
  lemma NoConnectSpanScenario()
    ensures var page := Loaded(SpansFound([Span("Follow", Completed, Completed, Completed)]));
      ScheduledRun(FirstRun(), [Target("E", "", page)], ConnectionLimit).disk == FirstRun()
  {
  }
}
