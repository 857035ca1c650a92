/** The retry and budget state machine of `script`, as pure functions: one
    iteration of the loop (`Cycle`), the whole loop over a finite list of
    oracle answers (`Run`), and the page-retry loop of `locate_item`
    (`LocateFrom`). The `Chrome` class and the `Script` method are proved
    against these. */
module CycleModel {
  import opened Types

  /** What the loop reads and writes: the task's counters, the controller's
      counters and flag, the shared launch arguments, and (for the proofs) a
      log of browser launches and closes. */
  datatype State = State(
    cycles: int,             // task.cycles
    skipCarts: int,          // task.skip_carts
    chromeSkipCarts: int,    // chrome.skip_carts
    errorLimit: int,         // chrome.error_limit
    success: bool,           // chrome.success
    open: bool,              // a launched browser has not been closed since
    args: seq<string>,       // the shared browser_args list
    log: seq<Event>)

  /** The way one iteration of the loop ends. */
  datatype Path =
    | LaunchRaised   // launch raised: error charged
    | LoadRaised     // load_page raised: browser closed, nothing charged
    | SearchRaised   // an exception escaped perform_search: browser closed, nothing charged
    | NotLocated     // locate_item returned False or None: error charged, browser closed
    | NotAdded       // success still false after the cart branch: error charged, browser closed
    | Succeeded      // success true: one cycle done, browser closed
    | Escaped        // go_back or smooth_scroll(3000) raised: script itself raises

  /** The paths on which `count_error` runs. */
  predicate Charged(p: Path)
  {
    p == LaunchRaised || p == NotLocated || p == NotAdded
  }

  datatype Step = Step(state: State, path: Path)

  /** `locate_item`'s three ways out: True on a page, False when pagination
      failed on a page, and None when the page range ran out. */
  datatype LocateResult = Found(page: int) | LastPage(page: int) | Exhausted

  // The effect of each controller step on the state, one function per step.

  /** `launch` appends a user-agent argument to the shared list. */
  function AddUserAgent(s: State, userAgent: string): State
  {
    s.(args := s.args + [UserAgentArg(userAgent)])
  }

  /** `chromium.launch` returned a browser. */
  function Open(s: State): State
  {
    s.(open := true, log := s.log + [Launched])
  }

  function Close(s: State): State
  {
    s.(open := false, log := s.log + [Closed])
  }

  /** `load_page` clears the success flag first. */
  function ResetSuccess(s: State): State
  {
    s.(success := false)
  }

  /** A primary `add_to_cart` whose click went through. */
  function MarkSuccess(s: State): State
  {
    s.(success := true)
  }

  function SkipCart(s: State): State
  {
    s.(skipCarts := s.skipCarts - 1, success := true)
  }

  function RefreshSkipCarts(s: State): State
  {
    s.(chromeSkipCarts := s.skipCarts)
  }

  function CountError(s: State): State
  {
    s.(errorLimit := s.errorLimit - 1)
  }

  function FinishCycle(s: State): State
  {
    s.(cycles := s.cycles - 1)
  }

  /** The answer of results page `pageNum` (numbered from 1); a page the list
      says nothing about answers like one whose locators all raise. */
  function ProbeAt(pages: seq<PageProbe>, pageNum: int): PageProbe
  {
    if 1 <= pageNum <= |pages| then pages[pageNum - 1] else PageProbe(false, false)
  }

  /** Pages `from` up to (not including) `to` lacked the item and paginated on. */
  ghost predicate Paginated(pages: seq<PageProbe>, from: int, to: int)
  {
    forall q :: from <= q < to ==> !ProbeAt(pages, q).itemFound && ProbeAt(pages, q).nextOk
  }

  /** The `for page_num in range(pageNum, pageLimit)` loop of `locate_item`. */
  function LocateFrom(pages: seq<PageProbe>, pageNum: int, pageLimit: int): (r: LocateResult)
    decreases pageLimit - pageNum
    ensures r.Found? ==>
      pageNum <= r.page < pageLimit && ProbeAt(pages, r.page).itemFound &&
      Paginated(pages, pageNum, r.page)
    ensures r.LastPage? ==>
      pageNum <= r.page < pageLimit && !ProbeAt(pages, r.page).itemFound &&
      !ProbeAt(pages, r.page).nextOk && Paginated(pages, pageNum, r.page)
    ensures r.Exhausted? <==> Paginated(pages, pageNum, pageLimit)
  {
    if pageNum >= pageLimit then Exhausted
    else if ProbeAt(pages, pageNum).itemFound then Found(pageNum)
    else if !ProbeAt(pages, pageNum).nextOk then LastPage(pageNum)
    else LocateFrom(pages, pageNum + 1, pageLimit)
  }

  /** Every event of `log` from index `from` on is a close. */
  ghost predicate ClosesFrom(log: seq<Event>, from: int)
  {
    forall k :: 0 <= from <= k < |log| ==> log[k] == Closed
  }

  /** The `if not chrome.success` decision at the end of an iteration. */
  function Evaluate(s: State): Step
  {
    if !s.success then Step(CountError(Close(s)), NotAdded)
    else Step(Close(FinishCycle(s)), Succeeded)
  }

  /** One iteration of `script`'s loop body, from `launch` to the success check. */
  function Cycle(s: State, o: CycleOracle, proxies: seq<Proxy>, pageLimit: int): (r: Step)
    // which counter moves on which path; never both
    ensures r.state.cycles == if r.path == Succeeded then s.cycles - 1 else s.cycles
    ensures r.state.errorLimit == if Charged(r.path) then s.errorLimit - 1 else s.errorLimit
    ensures r.state.cycles == s.cycles || r.state.errorLimit == s.errorLimit
    // the cart branch: skip when task.skip_carts is nonzero, full otherwise
    ensures r.state.skipCarts ==
      if r.path == Succeeded && s.skipCarts != 0 then s.skipCarts - 1 else s.skipCarts
    ensures s.skipCarts != 0 ==> r.path != NotAdded && r.path != Escaped
    ensures r.state.chromeSkipCarts ==
      if s.skipCarts == 0 && r.path in {NotAdded, Succeeded, Escaped} then 0 else s.chromeSkipCarts
    // how the path is decided
    ensures r.path == LaunchRaised <==> |proxies| == 0 || !o.launchOk
    ensures r.path == LoadRaised <==> |proxies| > 0 && o.launchOk && !o.loadOk
    ensures r.path == SearchRaised <==>
      |proxies| > 0 && o.launchOk && o.loadOk && o.search == SearchThrew
    ensures r.path == NotLocated <==>
      |proxies| > 0 && o.launchOk && o.loadOk && o.search != SearchThrew &&
      !LocateFrom(o.pages, 1, pageLimit).Found?
    ensures r.path == Escaped <==>
      |proxies| > 0 && o.launchOk && o.loadOk && o.search != SearchThrew &&
      LocateFrom(o.pages, 1, pageLimit).Found? && s.skipCarts == 0 && (!o.backOk || !o.scrollOk)
    ensures r.path == NotAdded <==>
      |proxies| > 0 && o.launchOk && o.loadOk && o.search != SearchThrew &&
      LocateFrom(o.pages, 1, pageLimit).Found? && s.skipCarts == 0 && o.backOk && o.scrollOk && !o.addOk
    ensures r.path == Succeeded <==>
      |proxies| > 0 && o.launchOk && o.loadOk && o.search != SearchThrew &&
      LocateFrom(o.pages, 1, pageLimit).Found? &&
      (s.skipCarts != 0 || (o.addOk && o.backOk && o.scrollOk))
  {
    if |proxies| == 0 then Step(CountError(s), LaunchRaised)
    else
      var launching := AddUserAgent(s, o.userAgent);
      if !o.launchOk then Step(CountError(launching), LaunchRaised)
      else
        var loading := ResetSuccess(Open(launching));
        if !o.loadOk then Step(Close(loading), LoadRaised)
        else if o.search == SearchThrew then Step(Close(loading), SearchRaised)
        else
          var searched := if o.search == SearchReturnedFalse then Close(loading) else loading;
          var located := LocateFrom(o.pages, 1, pageLimit);
          if !located.Found? then
            var gaveUp := if located.LastPage? then Close(searched) else searched;
            Step(Close(CountError(gaveUp)), NotLocated)
          else if searched.skipCarts == 0 then
            // full branch: primary add, refresh, go back, scroll, random item,
            // non-primary add (no effect on the state), refresh again
            var added := if o.addOk then MarkSuccess(searched) else searched;
            var refreshed := RefreshSkipCarts(added);
            if !o.backOk || !o.scrollOk then Step(refreshed, Escaped)
            else Evaluate(RefreshSkipCarts(refreshed))
          else
            Evaluate(SkipCart(searched))
  }

  /** How `script` ends: it returns a boolean, it raises, or the list of oracle
      answers ran out while the loop condition still held. */
  datatype Outcome = Returned(ok: bool) | Raised | Stalled

  datatype RunResult = RunResult(outcome: Outcome, final: State, paths: seq<Path>)

  /** `script`'s loop `while task.cycles and chrome.error_limit`, one oracle
      answer per iteration, followed by the error-limit check. */
  function Run(s: State, os: seq<CycleOracle>, proxies: seq<Proxy>, pageLimit: int): (r: RunResult)
    decreases |os|
    ensures |r.paths| <= |os|
    ensures r.outcome.Returned? ==>
      (r.final.cycles == 0 || r.final.errorLimit == 0) && (r.outcome.ok <==> r.final.errorLimit != 0)
    ensures r.outcome.Stalled? ==> r.final.cycles != 0 && r.final.errorLimit != 0
    ensures r.outcome.Raised? <==> |r.paths| > 0 && r.paths[|r.paths| - 1] == Escaped
  {
    if s.cycles == 0 || s.errorLimit == 0 then RunResult(Returned(s.errorLimit != 0), s, [])
    else if |os| == 0 then RunResult(Stalled, s, [])
    else
      var step := Cycle(s, os[0], proxies, pageLimit);
      if step.path == Escaped then RunResult(Raised, step.state, [Escaped])
      else
        var rest := Run(step.state, os[1..], proxies, pageLimit);
        rest.(paths := [step.path] + rest.paths)
  }

  /** One turn of the loop: a run that does not stop before the first
      iteration ends as the run from that iteration's end state. */
  lemma RunStep(s: State, os: seq<CycleOracle>, proxies: seq<Proxy>, pageLimit: int)
    requires s.cycles != 0 && s.errorLimit != 0 && |os| > 0
    ensures var step := Cycle(s, os[0], proxies, pageLimit);
            var next := Run(step.state, os[1..], proxies, pageLimit);
            var here := Run(s, os, proxies, pageLimit);
            if step.path == Escaped then here.outcome == Raised && here.final == step.state
            else here.outcome == next.outcome && here.final == next.final
  {
  }

  /** The success flag after one iteration: `load_page` clears it, and only a
      primary add that clicked, or `skip_cart`, sets it; a launch failure skips
      `load_page` and leaves it as it was. `launch` appends one user-agent
      argument as soon as a proxy could be chosen. */
  lemma CycleFlags(s: State, o: CycleOracle, proxies: seq<Proxy>, pageLimit: int)
    ensures var r := Cycle(s, o, proxies, pageLimit);
      && (r.path == LaunchRaised ==> r.state.success == s.success)
      && (r.path != LaunchRaised ==>
            r.state.success == (r.path == Succeeded || (r.path == Escaped && o.addOk)))
      && r.state.args == if |proxies| == 0 then s.args else s.args + [UserAgentArg(o.userAgent)]
  {
  }

  /** A browser launched in an iteration is closed, possibly several times,
      before the iteration ends, unless `script` raises from the full branch. */
  lemma CycleLog(s: State, o: CycleOracle, proxies: seq<Proxy>, pageLimit: int)
    ensures var r := Cycle(s, o, proxies, pageLimit);
      && (r.path == LaunchRaised ==> r.state.log == s.log && r.state.open == s.open)
      && (r.path != LaunchRaised ==>
            |r.state.log| > |s.log| && r.state.log[..|s.log| + 1] == s.log + [Launched] &&
            ClosesFrom(r.state.log, |s.log| + 1))
      && (r.path != LaunchRaised && r.path != Escaped ==>
            !r.state.open && |r.state.log| >= |s.log| + 2)
  {
  }
}
