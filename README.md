# LinkedIn connection bot — verified model of the outreach loop

This project models the bookkeeping core of a bot that sends LinkedIn
connection requests (`main.py`). Each run walks the rows of a target list in
order and stops once the per-run cap `CONNECTION_LIMIT` is reached. It skips
profiles already in the processed store (`processed_profiles.csv`). On each
remaining profile page it looks for a span whose text contains "Connect",
clicks it, tries to send the request with a note, and falls back to "Send now"
if that fails. Every outcome the handlers catch goes into an append-only log
(`connection_log.csv`) as "Success with Note", "Success without Note" or
"Skipped". A URL is marked processed, and the store rewritten, only when the
Connect span was clicked. A daily job reloads the store and runs the loop again.

The browser is replaced by an oracle. Each target row carries a `Page` value
that says in advance what each browser call does:

- the navigation raises, or the page loads;
- the span lookup raises, or it returns spans with their inner text;
- for each span: whether the click, the note path and the "Send now" path finish or raise.

The model then follows the code's exception routing exactly:

- the inner handlers catch Timeout, NotInteractable and ClickIntercepted;
- the outer handler catches Timeout and NoSuchElement;
- any other exception escapes and ends the run.

Modules:

- `Wrappers` (wrappers.dfy): `Option`.
- `ProfilePage` (profile_page.dfy): page outcomes, the substring test, the
  first-Connect-span search, the classification `Resolve` of a page into a
  bookkeeping `Effect`, and the method `VisitProfile` with the span loop.
- `Run` (run.dfy): the run as a state machine. `Advance` is one iteration and
  `RunFrom` the loop, over the in-memory processed table, both files, the
  counter and a halt reason. The lemmas cover the whole run.
- `Bot` (bot.dfy): class `Store`, which holds the two files as fields. Its
  methods are load/save/log and the imperative loop `SendConnectionRequest`,
  proved equal to `RunFrom`, plus `ScheduledTask`.
- `Schedule` (schedule.dfy): `Days`, one scheduled run per day, and the
  properties that hold across days.
- `Scenarios` (scenarios.dfy): concrete runs.

A reader might expect other behaviour in a few places. This model follows what `main.py` does:

- A "Skipped" outcome is not always marked processed. A skip logged by the outer handler (main.py:154-156) leaves the URL unmarked. It is logged when a Timeout or NoSuchElement comes from one of four places: the span lookup (main.py:111), the Connect click (114), the note path with an exception the inner handler does not catch (118-130), or "Send now" after a caught note failure (135-139). Such a URL is tried again on a later day and on a later duplicate row of the same run, so it can be logged more than once (`Scenarios.DuplicateTimeoutScenario`).
- A "Skipped" outcome after the Connect click is marked and also counted against `CONNECTION_LIMIT` when both send paths fail with exceptions the inner handlers catch (main.py:132, 142-151).
- A page whose spans all lack "Connect" produces no log row at all (main.py:112-113).
- Duplicate rows within one run are filtered once the first copy is marked, because the in-memory table is rebound at main.py:147 and consulted at main.py:100.
- A navigation failure ends the whole run, not just the row. `driver.get` (main.py:103) sits outside the try, so its exception escapes `send_connection_request`. It also escapes `run_schedule`, which has no handler, so no later day runs either (`ProfilePage.UncaughtIff`, `Schedule.Days`).

## Model

| member | source | states |
|---|---|---|
| `ProfilePage.StatusTextInjective` | main.py:130-156 | the three status strings written to the log are pairwise different, so a log row determines its outcome |
| `ProfilePage.ContainsTextAt` | main.py:113 | the recursive `in` test on strings holds iff the text occurs at some position of the inner text |
| `ProfilePage.FirstConnect` | main.py:112-113 | the span clicked is one whose inner text contains "Connect", and no earlier span has it; none is clicked iff no span has it |
| `ProfilePage.ClickOutcome` | main.py:114-152 | definition of the Connect click and its nested try blocks; its properties are stated by `MarkedIffClickHandled`, `ClickedStatus`, `OuterSkipIff` and `UncaughtIff` |
| `ProfilePage.Resolve` | main.py:103-156 | definition of the classification of a page into a bookkeeping effect; `VisitProfile` implements it, and the lemmas below state its cases |
| `ProfilePage.OuterSkipIff` | main.py:104-156 | a page is logged as "Skipped" without a mark iff a Timeout or NoSuchElement reaches the outer handler from the span lookup, the click, the note path (uncaught by the inner handler) or "Send now" after a caught note failure |
| `ProfilePage.UncaughtIff` | main.py:103-156 | a page ends the run with an exception iff `driver.get` raised it or it reached the outer handler, which does not catch it |
| `ProfilePage.VisitProfile` | main.py:103-156 | the span loop with its early exit yields exactly the classified effect `Resolve` of the page |
| `ProfilePage.MarkedIffClickHandled` | main.py:112-152 | a page leads to a mark iff a Connect span was clicked without error and every exception of the note and fallback paths was one the inner handlers catch |
| `ProfilePage.ClickedStatus` | main.py:117-144 | after a clean click the status is "Success with Note" iff the note path completed, "Success without Note" iff it failed and "Send now" worked, "Skipped" iff both failed |
| `ProfilePage.LogOnlyIsSkipped` | main.py:111-156 | a log row without a mark is always "Skipped", and a span lookup raising Timeout or NoSuchElement produces exactly that |
| `ProfilePage.NoEffectIffNoConnectSpan` | main.py:111-113 | a page leaves no trace iff the lookup returned a (never empty) list of spans and none contains "Connect" |
| `Run.ReloadSeesFinalTable` | main.py:77-81 | loading the store (`LoadProcessed`, the definition of load_processed_profiles: the stored URLs, or none when the file is absent) after a scheduled run gives exactly the table the run ended with |
| `Run.Advance` | main.py:92-152 | definition of one loop iteration; its cases are stated by `LimitStopsRun`, `ProcessedRowChangesNothing`, `ClickedRowIsMarked`, `LookupFailureLogsOnly` and `NoConnectSpanChangesNothing` |
| `Run.RunFrom` | main.py:88-156 | definition of the loop over the remaining rows; its properties are stated by `RunBookkeeping`, `MarksAreFresh`, `RunKeepsNoDuplicates`, `NoLogForProcessed`, `LogFollowsInput`, `SuccessesAreCounted` and `RunWithinLimit`, and `Bot.Store.SendConnectionRequest` implements it |
| `Run.ScheduledRun` | main.py:159-161 | definition of reload-then-run; its properties are stated by `ScheduledRunKeepsStore`, and `Bot.Store.ScheduledTask` implements it |
| `Run.LimitStopsRun` | main.py:92-95 | with the counter at the limit the loop stops before the next row and changes nothing else |
| `Run.ProcessedRowChangesNothing` | main.py:100-101 | a row whose URL is in the processed table causes no log row, no mark and no count |
| `Run.ClickedRowIsMarked` | main.py:112-152 | after a clean Connect click the row adds exactly one log row for its URL, appends the URL to the table, rewrites the store with it and adds one to the counter |
| `Run.LookupFailureLogsOnly` | main.py:111-156 | a span lookup raising Timeout or NoSuchElement logs "Skipped" and leaves table, store file and counter unchanged |
| `Run.NoConnectSpanChangesNothing` | main.py:112-113 | spans without "Connect" leave the whole state unchanged |
| `Run.RunBookkeeping` | main.py:90-152 | over a run the counter never passes the limit and equals the number of URLs appended; the table only grows by appending; the store file is untouched or holds the final table; the log only grows |
| `Run.MarksAreFresh` | main.py:100-147 | every URL appended to the table during a run was absent from it just before |
| `Run.RunKeepsNoDuplicates` | main.py:100-147 | a duplicate-free processed table stays duplicate-free, even when input rows repeat a URL |
| `Run.NoLogForProcessed` | main.py:100-101 | a run writes no log row for a URL that was processed at its start |
| `Run.LogFollowsInput` | main.py:83-92 | the log rows a run adds name input rows, at most one per row and in input order, appended after the earlier rows |
| `Run.SuccessesAreCounted` | main.py:130-151 | the success rows a run logs are at most the connections it counts |
| `Run.RunWithinLimit` | main.py:29-151 | a run marks at most `limit` URLs and logs at most `limit` successes |
| `Run.ScheduledRunKeepsStore` | main.py:159-161 | across a scheduled run the stored URLs are kept as a prefix, duplicate-freedom is preserved, and nothing is logged for a stored URL |
| `Schedule.Days` | main.py:159-168 | definition of one scheduled run per day, ending after a run an exception escapes; its properties are stated by `ProcessedNeverRetried` and `StoreGrowsAcrossDays` |
| `Schedule.ProcessedNeverRetried` | main.py:159-168 | a stored URL stays stored on every later day and never gets another log row |
| `Schedule.StoreGrowsAcrossDays` | main.py:159-168 | over any number of daily runs the store only grows and stays duplicate-free |
| `Bot.Store.LoadProcessedProfiles` | main.py:77-81 | returns `LoadProcessed` of the store file: the stored URLs, or none when the file does not exist |
| `Bot.Store.SaveProcessedProfiles` | main.py:74-75 | overwrites the store file with the given table and leaves the log alone |
| `Bot.Store.LogResult` | main.py:83-86 | appends exactly one `(url, status)` row and leaves earlier rows and the store unchanged |
| `Bot.Store.SendConnectionRequest` | main.py:88-156 | the loop leaves the files and returns the state `RunFrom` gives from a zero counter and the given table, with limit `CONNECTION_LIMIT` |
| `Bot.Store.ScheduledTask` | main.py:159-161 | reloading the store and running the loop leaves the files exactly as `ScheduledRun` gives |
| `Scenarios.OneConnectPageClicks` | main.py:111-114 | a page with one span reading "Connect" is resolved by clicking that span |
| `Scenarios.NoteSentScenario` | main.py:117-151 | a first run with note sent logs "Success with Note" and stores the URL |
| `Scenarios.FallbackScenario` | main.py:132-139 | note path timing out and "Send now" working logs "Success without Note", not "Skipped" |
| `Scenarios.ClickedSkipScenario` | main.py:142-151 | both send paths failing logs "Skipped", yet stores and counts the URL |
| `Scenarios.LookupTimeoutScenario` | main.py:111-161 | a lookup timeout logs "Skipped", leaves the store unwritten, and the next day sends to that profile |
| `Scenarios.LimitOneScenario` | main.py:29-95 | with limit one, of two good rows only the first is sent; the second is sent the next day |
| `Scenarios.DuplicateMarkedScenario` | main.py:100-147 | a repeated row whose first copy was marked is skipped within the same run |
| `Scenarios.DuplicateTimeoutScenario` | main.py:100-156 | a repeated row whose first copy only timed out is visited again and logged twice |
| `Scenarios.NoConnectSpanScenario` | main.py:112-113 | spans without "Connect" leave both files untouched |

## Left out

- Driver setup and login (main.py:31-68): browser start-up and authentication against the remote site.
- What the Selenium waits, clicks, `send_keys` and scrolling scripts do (main.py:103-127, 135-136). They are replaced by the per-row `Page` oracle. The note path (lines 118-127) is one action whose first exception is recorded, and an exception raised while scrolling counts as raised by the span lookup.
- The text of `Custom Note`: it is typed into the page and has no effect on the bookkeeping, so it is carried in `Target` but not used.
- All `time.sleep` pacing, the random scroll count and offsets, and the random `BUTTON_CLICK_DELAY` (main.py:23, 106-109, 115, 120, 124, 140, 149). These are timing and randomness.
- `run_schedule`, the `schedule` library's clock and the background thread racing `driver.quit()` (main.py:163-186): wall-clock scheduling and concurrency. `Schedule.Days` models only the sequence of daily runs. It assumes an exception escaping a run also ends the daily loop, since run_schedule has no handler; the `schedule` library is not part of this model.
- CSV parsing and writing with pandas and `csv` (main.py:70-86). The files are sequences of URLs and of `(url, status)` rows, a missing store file is `None`, and URL membership is exact string equality.
- Exceptions raised by `get_attribute` (main.py:113), by `log_result` (main.py:84-86) or by `save_processed_profiles` (main.py:75) are not modelled: the model assumes those calls succeed. A failing store write after the log row was written (a log row but an unchanged store) therefore has no counterpart. Other exceptions that the handlers do not name, raised by the browser calls the oracle does describe, end the run as `Uncaught`. The files then keep what was written before.
- An empty span list from the wait at main.py:111: the wait keeps polling while nothing is found and then raises a timeout, so that case is `LookupRaised(Timeout)`, and `SpansFound` carries a non-empty list.
- Console messages (`print`).
