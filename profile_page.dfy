/** What happens on one profile page (main.py:103-156), with the browser replaced
    by a value that says, ahead of time, what each browser call does. The module
    reduces such a page to the bookkeeping effect the outreach loop applies. */
module ProfilePage {
  import opened Wrappers

  type Url = string

  /** The Selenium exceptions the handlers tell apart; `OtherError` is any
      exception neither handler names. */
  datatype Exc = Timeout | NoSuchElement | NotInteractable | ClickIntercepted | OtherError

  /** Outcome of a browser call, or of a run of calls: it finished, or the
      first exception it raised. */
  datatype Action = Completed | Raised(exc: Exc)

  /** One span the "Connect" lookup returned, with what the browser does if
      the bot clicks it: `click` is the click itself (line 114), `notePath` the
      add-note sub-path as a whole (lines 118-127), `sendNow` the "Send now"
      fallback (lines 135-136). */
  datatype Span = Span(innerText: string, click: Action, notePath: Action, sendNow: Action)

  /** What the wait at line 111 can return: it keeps polling while no span is
      present and raises a timeout once the wait expires, so a returned list is
      never empty. */
  type FoundSpans = spans: seq<Span> | |spans| > 0 witness [Span("", Completed, Completed, Completed)]

  /** Result of the scrolling and the wait for all "Connect" spans (lines 105-111). */
  datatype Lookup = LookupRaised(exc: Exc) | SpansFound(spans: FoundSpans)

  /** The page: `driver.get` (line 103) raised, or the page loaded. */
  datatype Page = NavigationRaised(exc: Exc) | Loaded(lookup: Lookup)

  /** The three statuses the log file records. */
  datatype Status = SuccessWithNote | SuccessWithoutNote | Skipped

  /** The bookkeeping a page calls for: nothing, a log row only, a log row
      followed by marking the URL processed and counting it, or an exception
      that escapes both handlers and ends the run. */
  datatype Effect = NoEffect | LogOnly(status: Status) | LogAndMark(status: Status) | Uncaught(exc: Exc)

  /** The text written in the status column of the log. */
  function StatusText(s: Status): string
  {
    match s
    case SuccessWithNote => "Success with Note"
    case SuccessWithoutNote => "Success without Note"
    case Skipped => "Skipped"
  }

  lemma StatusTextInjective(a: Status, b: Status)
    ensures StatusText(a) == StatusText(b) <==> a == b
  {
  }

  /** Python's `sub in s` on strings. */
  predicate ContainsText(s: string, sub: string)
    decreases |s|
  {
    (|sub| <= |s| && s[..|sub|] == sub) || (|s| > 0 && ContainsText(s[1..], sub))
  }

  /** `sub` occurs in `s` starting at index `k`. */
  predicate OccursAt(s: string, sub: string, k: int)
  {
    0 <= k && k + |sub| <= |s| && s[k..k + |sub|] == sub
  }

  /** The recursive test agrees with the positional definition of a substring. */
  lemma {:induction false} ContainsTextAt(s: string, sub: string)
    ensures ContainsText(s, sub) <==> exists k :: OccursAt(s, sub, k)
    decreases |s|
  {
    if |sub| <= |s| && s[..|sub|] == sub {
      assert OccursAt(s, sub, 0);
    }
    if |s| > 0 {
      ContainsTextAt(s[1..], sub);
      if ContainsText(s[1..], sub) {
        var k :| OccursAt(s[1..], sub, k);
        assert s[k + 1..k + 1 + |sub|] == s[1..][k..k + |sub|];
        assert OccursAt(s, sub, k + 1);
      }
      if k :| OccursAt(s, sub, k) {
        if k > 0 {
          assert s[1..][k - 1..k - 1 + |sub|] == s[k..k + |sub|];
          assert OccursAt(s[1..], sub, k - 1);
        } else {
          assert s[..|sub|] == s[k..k + |sub|];
        }
      }
    }
  }

  /** The test at line 113: the span's inner text contains "Connect". */
  predicate HasConnect(span: Span)
  {
    ContainsText(span.innerText, "Connect")
  }

  /** Index of the span the loop at lines 112-113 clicks: the first whose
      inner text contains "Connect". */
  function FirstConnect(spans: seq<Span>): (r: Option<nat>)
    ensures r.Some? ==> r.value < |spans| && HasConnect(spans[r.value])
    ensures forall j :: 0 <= j < |spans| && (r.None? || j < r.value) ==> !HasConnect(spans[j])
  {
    if |spans| == 0 then None
    else if HasConnect(spans[0]) then Some(0)
    else match FirstConnect(spans[1..])
      case None => None
      case Some(k) => Some(k + 1)
  }

  /** The exceptions the inner handlers catch (lines 132 and 142). */
  predicate InnerCatches(e: Exc)
  {
    e == Timeout || e == NotInteractable || e == ClickIntercepted
  }

  /** The exceptions the outer handler catches (line 154). */
  predicate OuterCatches(e: Exc)
  {
    e == Timeout || e == NoSuchElement
  }

  /** An exception that leaves the connect branch reaches the outer handler:
      logged as skipped when it is caught there, otherwise it ends the run. */
  function OuterHandler(e: Exc): Effect
  {
    if OuterCatches(e) then LogOnly(Skipped) else Uncaught(e)
  }

  /** The clicked span's exceptions all stay inside the inner handlers. */
  predicate HandledInside(span: Span)
  {
    span.notePath.Completed? ||
    (InnerCatches(span.notePath.exc) && (span.sendNow.Completed? || InnerCatches(span.sendNow.exc)))
  }

  /** Lines 114-152: click the span, try the note path, fall back to
      "Send now", and mark the URL unless an exception escapes. */
  function ClickOutcome(span: Span): Effect
  {
    match span.click
    case Raised(e) => OuterHandler(e)
    case Completed =>
      match span.notePath
      case Completed => LogAndMark(SuccessWithNote)
      case Raised(e) =>
        if !InnerCatches(e) then OuterHandler(e)
        else match span.sendNow
          case Completed => LogAndMark(SuccessWithoutNote)
          case Raised(e2) => if InnerCatches(e2) then LogAndMark(Skipped) else OuterHandler(e2)
  }

  /** The whole page, lines 103-156. */
  function Resolve(page: Page): Effect
  {
    match page
    case NavigationRaised(e) => Uncaught(e)
    case Loaded(LookupRaised(e)) => OuterHandler(e)
    case Loaded(SpansFound(spans)) =>
      match FirstConnect(spans)
      case None => NoEffect
      case Some(k) => ClickOutcome(spans[k])
  }

  /** The span the bot clicks, if the lookup returned one with "Connect" in it. */
  function ClickedSpan(page: Page): (r: Option<Span>)
    ensures r.Some? ==> page.Loaded? && page.lookup.SpansFound? && exists k :: 0 <= k < |page.lookup.spans| && page.lookup.spans[k] == r.value && HasConnect(r.value)
  {
    if page.Loaded? && page.lookup.SpansFound? then
      match FirstConnect(page.lookup.spans)
      case None => None
      case Some(k) => Some(page.lookup.spans[k])
    else None
  }

  /** The browser side of one iteration: load the page, look for the spans,
      walk them until one has "Connect" in its text, and resolve that click. */
  method VisitProfile(page: Page) returns (effect: Effect)
    ensures effect == Resolve(page)
  {
    if page.NavigationRaised? {
      return Uncaught(page.exc);
    }
    match page.lookup
    case LookupRaised(e) =>
      effect := OuterHandler(e);
    case SpansFound(spans) =>
      var j := 0;
      while j < |spans|
        invariant 0 <= j <= |spans|
        invariant forall m :: 0 <= m < j ==> !HasConnect(spans[m])
      {
        if HasConnect(spans[j]) {
          return ClickOutcome(spans[j]);
        }
        j := j + 1;
      }
      effect := NoEffect;
  }

  /** A URL is marked processed exactly when a Connect span was clicked without
      error and no exception of the note path or the fallback escaped. */
  lemma MarkedIffClickHandled(page: Page)
    ensures Resolve(page).LogAndMark? <==>
      ClickedSpan(page).Some? && ClickedSpan(page).value.click.Completed? && HandledInside(ClickedSpan(page).value)
  {
  }

  /** Once the Connect click went through and nothing escaped, the status is
      "Success with Note" when the note path completed, "Success without Note"
      when it failed and "Send now" worked, and "Skipped" only when both failed. */
  lemma ClickedStatus(span: Span)
    requires span.click.Completed? && HandledInside(span)
    ensures ClickOutcome(span).LogAndMark?
    ensures ClickOutcome(span).status == SuccessWithNote <==> span.notePath.Completed?
    ensures ClickOutcome(span).status == SuccessWithoutNote <==> span.notePath.Raised? && span.sendNow.Completed?
    ensures ClickOutcome(span).status == Skipped <==> span.notePath.Raised? && span.sendNow.Raised?
  {
  }

  /** A page that yields a log row without a mark always logs "Skipped", and a
      span lookup that timed out or found no element yields exactly that. */
  lemma LogOnlyIsSkipped(page: Page)
    ensures Resolve(page).LogOnly? ==> Resolve(page).status == Skipped
    ensures page.Loaded? && page.lookup.LookupRaised? && OuterCatches(page.lookup.exc) ==> Resolve(page) == LogOnly(Skipped)
  {
  }

  /** A page leaves no trace at all exactly when the lookup returned spans and
      none of them has "Connect" in its text. */
  lemma NoEffectIffNoConnectSpan(page: Page)
    ensures Resolve(page) == NoEffect <==> page.Loaded? && page.lookup.SpansFound? && ClickedSpan(page).None?
  {
  }

  /** The exception `e` reaches the outer handler at line 154. It can come from
      one of four places: the span lookup (line 111), the click on the Connect
      span (line 114), the note path with an exception the inner handler does
      not catch (lines 118-130), or "Send now" after a caught note failure with
      an exception the second inner handler does not catch (lines 135-139). */
  predicate ReachesOuterHandler(page: Page, e: Exc)
  {
    page.Loaded? &&
    (page.lookup == LookupRaised(e) ||
     (ClickedSpan(page).Some? &&
      var span := ClickedSpan(page).value;
      span.click == Raised(e) ||
      (span.click.Completed? && span.notePath == Raised(e) && !InnerCatches(e)) ||
      (span.click.Completed? && span.notePath.Raised? && InnerCatches(span.notePath.exc) &&
       span.sendNow == Raised(e) && !InnerCatches(e))))
  }

  /** A page is logged as "Skipped" without a mark exactly when a Timeout or a
      NoSuchElement reaches the outer handler. */
  lemma OuterSkipIff(page: Page)
    ensures Resolve(page) == LogOnly(Skipped) <==>
      ReachesOuterHandler(page, Timeout) || ReachesOuterHandler(page, NoSuchElement)
  {
  }

  /** A page ends the run with `e` exactly when `driver.get` raised it (line
      103, outside the try) or it reached the outer handler, which does not
      catch it. */
  lemma UncaughtIff(page: Page, e: Exc)
    ensures Resolve(page) == Uncaught(e) <==>
      page == NavigationRaised(e) || (ReachesOuterHandler(page, e) && !OuterCatches(e))
  {
  }
}
