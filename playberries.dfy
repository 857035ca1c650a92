/** The controller as the source writes it: a mutable task record, the
    module-level launch-argument list that every controller shares, the
    `Chrome` class whose methods update their counters in place, and
    `script`'s loop. Browser and page calls are replaced by oracle answers. */
module Playberries {
  import opened Types
  import opened CycleModel

  /** The task record. `script` and `skip_cart` update its two counters in place. */
  class Task {
    const id: int
    const prompt: string
    const itemId: int
    var cycles: int
    var skipCarts: int

    constructor (id: int, prompt: string, itemId: int, cycles: int, skipCarts: int)
      ensures this.id == id && this.prompt == prompt && this.itemId == itemId
      ensures this.cycles == cycles && this.skipCarts == skipCarts
    {
      this.id, this.prompt, this.itemId := id, prompt, itemId;
      this.cycles, this.skipCarts := cycles, skipCarts;
    }
  }

  /** The module-level BROWSER_ARGS list. Each controller keeps a reference to
      the same list, so every launch of every task appends to it. */
  class ArgList {
    var items: seq<string>

    constructor (items: seq<string>)
      ensures this.items == items
    {
      this.items := items;
    }
  }

  /** The state `script` starts from: the controller's fields as `__init__`
      sets them, with no browser launched yet. */
  function Start(cycles: int, skipCarts: int, errorLimit: int, args: seq<string>): State
  {
    State(cycles, skipCarts, skipCarts, errorLimit, false, false, args, [])
  }

  class Chrome {
    const task: Task
    const browserArgs: ArgList
    const proxies: seq<Proxy>
    const cycles: int          // a copy of task.cycles taken once; the loop reads task.cycles
    const pageLimit: int
    var skipCarts: int
    var errorLimit: int
    var success: bool
    ghost var browserOpen: bool
    ghost var log: seq<Event>

    /** The controller's state as the loop model sees it. */
    ghost function Snapshot(): State
      reads this, task, browserArgs
    {
      State(task.cycles, task.skipCarts, skipCarts, errorLimit, success, browserOpen, browserArgs.items, log)
    }

    /** `__init__` followed by `__aenter__`, whose proxy list arrives as `proxies`. */
    constructor (task: Task, browserArgs: ArgList, proxies: seq<Proxy>, cfg: Config)
      ensures this.task == task && this.browserArgs == browserArgs && this.proxies == proxies
      ensures cycles == task.cycles && pageLimit == cfg.pageLimit
      ensures Snapshot() == Start(task.cycles, task.skipCarts, cfg.errorLimit, browserArgs.items)
    {
      this.task, this.browserArgs, this.proxies := task, browserArgs, proxies;
      skipCarts := task.skipCarts;
      cycles := task.cycles;
      errorLimit := cfg.errorLimit;
      pageLimit := cfg.pageLimit;
      success := false;
      browserOpen := false;
      log := [];
    }

    /** Chooses a proxy (raising on an empty list), appends a user-agent
        argument to the shared list, then launches; `ok` is false when it raised. */
    method Launch(userAgent: string, launchOk: bool) returns (ok: bool)
      modifies this, browserArgs
      ensures ok <==> |proxies| > 0 && launchOk
      ensures Snapshot() ==
        if |proxies| == 0 then old(Snapshot())
        else if !launchOk then AddUserAgent(old(Snapshot()), userAgent)
        else Open(AddUserAgent(old(Snapshot()), userAgent))
    {
      if |proxies| == 0 {
        return false;
      }
      browserArgs.items := browserArgs.items + [UserAgentArg(userAgent)];
      if !launchOk {
        return false;
      }
      browserOpen := true;
      log := log + [Launched];
      ok := true;
    }

    method Close()
      modifies this
      ensures Snapshot() == CycleModel.Close(old(Snapshot()))
    {
      browserOpen := false;
      log := log + [Closed];
    }

    /** Resets `success` before it opens the page; `ok` is false when it raised. */
    method LoadPage(loadOk: bool) returns (ok: bool)
      modifies this
      ensures ok == loadOk
      ensures Snapshot() == ResetSuccess(old(Snapshot()))
    {
      success := false;
      ok := loadOk;
    }

    /** Returns True, or closes the browser and returns False, or lets an
        exception escape (None). */
    method PerformSearch(outcome: SearchOutcome) returns (r: Option<bool>)
      modifies this
      ensures r == match outcome
                   case Searched => Some(true)
                   case SearchReturnedFalse => Some(false)
                   case SearchThrew => None
      ensures Snapshot() ==
        if outcome == SearchReturnedFalse then CycleModel.Close(old(Snapshot())) else old(Snapshot())
    {
      match outcome
      case Searched =>
        r := Some(true);
      case SearchReturnedFalse =>
        Close();
        r := Some(false);
      case SearchThrew =>
        r := None;
    }

    /** Tries pages 1 .. pageLimit - 1: clicks the item on the first page that
        has it, or closes the browser when pagination fails. */
    method LocateItem(pages: seq<PageProbe>) returns (r: LocateResult)
      modifies this
      ensures r == LocateFrom(pages, 1, pageLimit)
      ensures Snapshot() == if r.LastPage? then CycleModel.Close(old(Snapshot())) else old(Snapshot())
    {
      var pageNum := 1;
      while pageNum < pageLimit
        invariant 1 <= pageNum
        invariant LocateFrom(pages, pageNum, pageLimit) == LocateFrom(pages, 1, pageLimit)
        invariant unchanged(this)
        decreases pageLimit - pageNum
      {
        var probe := ProbeAt(pages, pageNum);
        if probe.itemFound {
          return Found(pageNum);
        }
        if !probe.nextOk {
          Close();
          return LastPage(pageNum);
        }
        pageNum := pageNum + 1;
      }
      return Exhausted;
    }

    /** Clicks "add to cart"; only a primary add that clicked sets `success`. */
    method AddToCart(primary: bool, clickOk: bool)
      modifies this
      ensures Snapshot() == if primary && clickOk then MarkSuccess(old(Snapshot())) else old(Snapshot())
    {
      if clickOk && primary {
        success := true;
      }
    }

    method SkipCart()
      modifies this, task
      ensures Snapshot() == CycleModel.SkipCart(old(Snapshot()))
    {
      task.skipCarts := task.skipCarts - 1;
      success := true;
    }

    /** Copies the task's counter into the controller's; the task's is not refilled. */
    method RefreshSkipCarts()
      modifies this
      ensures Snapshot() == CycleModel.RefreshSkipCarts(old(Snapshot()))
    {
      skipCarts := task.skipCarts;
    }

    method CountError()
      modifies this
      ensures Snapshot() == CycleModel.CountError(old(Snapshot()))
    {
      errorLimit := errorLimit - 1;
    }

    /** Draws up to 7 slots, skipping advert cards, and tries to click the
        first plain card drawn. A plain card whose hover or click raises ends
        the method with no click, as does a draw the list does not hold (a
        locator that raised): the method's own handler swallows both. */
    method ClickRandomItem(draws: seq<Draw>) returns (tried: nat, clicked: Option<Slot>)
      ensures tried <= 7 && tried <= |draws|
      ensures forall j :: 0 <= j < tried - 1 ==> draws[j].advert
      ensures clicked.Some? <==> 0 < tried && !draws[tried - 1].advert && draws[tried - 1].clickOk
      ensures clicked.Some? ==> clicked.value == draws[tried - 1].slot
      ensures tried < 7 && tried < |draws| ==> 0 < tried && !draws[tried - 1].advert
      ensures clicked.None? ==>
        || ((tried == 7 || tried == |draws|) && forall j :: 0 <= j < tried ==> draws[j].advert)
        || (0 < tried && !draws[tried - 1].advert && !draws[tried - 1].clickOk)
    {
      var attempts := 7;
      tried, clicked := 0, None;
      while attempts != 0
        invariant 0 <= attempts <= 7 && tried == 7 - attempts && tried <= |draws|
        invariant clicked.None?
        invariant forall j :: 0 <= j < tried ==> draws[j].advert
      {
        if tried == |draws| {
          return;
        }
        var draw := draws[tried];
        tried := tried + 1;
        if draw.advert {
          attempts := attempts - 1;
          continue;
        }
        if draw.clickOk {
          clicked := Some(draw.slot);
        }
        return;
      }
    }

    /** The scroll positions `smooth_scroll(height)` sends to the page. */
    method SmoothScroll(height: int) returns (positions: seq<int>)
      ensures forall k :: 0 <= k < |positions| ==> positions[k] == 1 + 5 * k && positions[k] < height
      ensures 1 + 5 * |positions| >= height
    {
      positions := [];
      var i := 1;
      while i < height
        invariant i == 1 + 5 * |positions|
        invariant forall k :: 0 <= k < |positions| ==> positions[k] == 1 + 5 * k && positions[k] < height
        decreases height - i
      {
        positions := positions + [i];
        i := i + 5;
      }
    }
  }

  /** The body of `script`'s loop: one cycle from `launch` to the success
      check. Each `continue` of the loop is a `return` here, and `Escaped`
      stands for the exception that leaves `script` from the full branch. */
  method CycleOnce(chrome: Chrome, o: CycleOracle) returns (path: Path)
    modifies chrome, chrome.task, chrome.browserArgs
    ensures var step := Cycle(old(chrome.Snapshot()), o, chrome.proxies, chrome.pageLimit);
            chrome.Snapshot() == step.state && path == step.path
  {
    ghost var step := Cycle(chrome.Snapshot(), o, chrome.proxies, chrome.pageLimit);
    var task := chrome.task;
    var launched := chrome.Launch(o.userAgent, o.launchOk);
    if !launched {
      chrome.CountError();
      return LaunchRaised;
    }
    var loaded := chrome.LoadPage(o.loadOk);
    if !loaded {
      chrome.Close();
      return LoadRaised;
    }
    var searched := chrome.PerformSearch(o.search);   // a returned False is not looked at
    if searched.None? {
      chrome.Close();
      return SearchRaised;
    }
    var located := chrome.LocateItem(o.pages);
    if !located.Found? {
      chrome.CountError();
      chrome.Close();
      return NotLocated;
    }
    if task.skipCarts == 0 {
      chrome.AddToCart(true, o.addOk);
      chrome.RefreshSkipCarts();
      if !o.backOk || !o.scrollOk {
        // page.go_back or smooth_scroll(3000) raised: nothing in script catches it
        return Escaped;
      }
      var positions := chrome.SmoothScroll(3000);
      var tried, clicked := chrome.ClickRandomItem(o.draws);
      chrome.AddToCart(false, o.secondAddOk);
      chrome.RefreshSkipCarts();
    } else {
      chrome.SkipCart();
    }
    if !chrome.success {
      chrome.Close();
      chrome.CountError();
      return NotAdded;
    } else {
      task.cycles := task.cycles - 1;
      chrome.Close();
      return Succeeded;
    }
  }

  /** `script`: runs cycles while the task has cycles left and the controller
      has errors left, one oracle answer per iteration, and then reports
      whether the error limit was reached. */
  method Script(task: Task, browserArgs: ArgList, proxies: seq<Proxy>, cfg: Config, oracles: seq<CycleOracle>)
    returns (outcome: Outcome, ghost final: State)
    modifies task, browserArgs
    ensures var run := Run(Start(old(task.cycles), old(task.skipCarts), cfg.errorLimit, old(browserArgs.items)),
                           oracles, proxies, cfg.pageLimit);
            outcome == run.outcome && final == run.final
    ensures task.cycles == final.cycles && task.skipCarts == final.skipCarts
    ensures browserArgs.items == final.args
  {
    var chrome := new Chrome(task, browserArgs, proxies, cfg);
    ghost var whole := Run(chrome.Snapshot(), oracles, proxies, cfg.pageLimit);
    var i := 0;
    while task.cycles != 0 && chrome.errorLimit != 0
      invariant 0 <= i <= |oracles|
      invariant Run(chrome.Snapshot(), oracles[i..], proxies, cfg.pageLimit).outcome == whole.outcome
      invariant Run(chrome.Snapshot(), oracles[i..], proxies, cfg.pageLimit).final == whole.final
      decreases |oracles| - i
    {
      if i == |oracles| {
        outcome, final := Stalled, chrome.Snapshot();
        return;
      }
      RunStep(chrome.Snapshot(), oracles[i..], proxies, cfg.pageLimit);
      assert oracles[i..][0] == oracles[i] && oracles[i..][1..] == oracles[i + 1..];
      var path := CycleOnce(chrome, oracles[i]);
      i := i + 1;
      if path == Escaped {
        outcome, final := Raised, chrome.Snapshot();
        return;
      }
      // the wait(WAIT_AFTER_FINISH) after a completed cycle changes nothing modelled
    }
    outcome := if chrome.errorLimit == 0 then Returned(false) else Returned(true);
    final := chrome.Snapshot();
  }
}
