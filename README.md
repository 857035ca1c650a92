# playberries: the retry and budget state machine

`script(task)` drives one marketplace task through a headless browser. It
repeats a cycle until the task's `cycles` budget or the controller's
`error_limit` budget reaches zero. Each cycle does the following:

1. launch a browser through a random proxy;
2. open the site and search for the task's prompt;
3. look for the target item page by page;
4. either add the item to the cart (the "full" branch) or, while the task
   still has `skip_carts`, open the cart and count a skip instead.

Some failures charge the error budget: a failed launch, an item not found,
and a cycle that ends without `success`. A successful cycle consumes one
cycle. Some failures charge nothing: a failed page load and an exception
escaping the search. An exception from `go_back` or from
`smooth_scroll(3000)` in the full branch is not caught, and `script` raises.

The model has three layers:

- `types.dfy` holds the values the controller works with (module `Types`).
  It also holds the *oracle* values that stand for every answer of the
  browser, the page and the random choices. `CycleOracle` gathers
  everything one iteration of the loop is told.
- `model.dfy` is the loop as pure functions (module `CycleModel`):
  - one function per state step;
  - `LocateFrom` for the page loop of `locate_item`;
  - `Cycle` for one iteration, whose contract says which counter moves on
    which path;
  - `Run` for the whole loop over a finite list of oracle answers.

  `Run` ends `Returned(ok)` when the loop condition fails. It ends `Raised`
  when `script` raises. It ends `Stalled` when the answers run out while the
  loop would go on: the loop itself has no bound.
- `playberries.dfy` is the controller as the source writes it (module
  `Playberries`):
  - a mutable `Task` record;
  - an `ArgList` class for the module-level `BROWSER_ARGS` list, which
    every controller shares and appends to;
  - the `Chrome` class, whose methods update their fields in place;
  - `Script`, the imperative loop.

  Every method is proved against the step function it performs, through the
  ghost `Chrome.Snapshot()`. `CycleOnce` is the loop body: each `continue`
  of the source is a `return` of the way the iteration ended. `Script`'s
  outcome and final state are proved equal to those of `Run`.

`properties.dfy` (module `BudgetLemmas`) proves whole-run properties:

- budget accounting;
- bounds;
- the result's meaning;
- browser launches are closed;
- the shared argument list only grows;
- behaviours of the code that a reader might not expect (see below).

`scenarios.dfy` works through concrete runs.

The repository has two copies of the controller: `playberries.py` and
`scrapper/playberries.py`. Their control flow is the same, and one model
serves both. The copies differ in two ways:

- the launch handler: a bare `except:` at playberries.py:298 and
  `except Exception` at scrapper/playberries.py:248;
- logging: `print` in one copy and a logger in the other.

Neither difference changes anything the model states: the model has no
exceptions outside the `Exception` hierarchy and no output. The table below
cites whichever copy is clearer for each member. The line numbers
correspond as follows (playberries.py → scrapper/playberries.py):

| member | playberries.py | scrapper/playberries.py |
|---|---|---|
| `launch` | 73 | 51 |
| `locate_item` | 164 | 125 |
| `script` | 293 | 243 |

Behaviours of the code a reader might not expect, which the model keeps as
written:

- `refresh_skip_carts` copies the task's `skip_carts` into the controller.
  It never refills the task's counter. Once a task has used its skips,
  every later cycle runs the full branch (`SkipCartsStayZero`,
  `ScenarioSkipNotRefilled`).
- A page that fails to load costs nothing, so the loop need not end
  (`LoadFailuresStall`).
- `perform_search` returns `False` after it has closed the browser, and the
  loop ignores that value. It goes on to `locate_item` on a closed browser
  (`SearchFailureClosesThrice`).

The oracles are free. An answer may report success for a call made after
the browser was closed, which the real browser would not give. The
model's behaviours are therefore a superset of the program's. Every
property proved for all oracle answers also holds of the program.

## Model

| member | source | states |
|---|---|---|
| CycleModel.LocateFrom | playberries.py:164-192 | `locate_item` returns True on the first page whose item could be reached, with every earlier page paginated on; False on the first page where the item failed and `next_page` failed too; None exactly when every page in `range(1, page_limit)` paginated on |
| CycleModel.Cycle | playberries.py:296-347 | one iteration: `cycles` drops by one exactly on success and `error_limit` exactly on a charged failure (launch failure, item not found, `success` false), never both; `task.skip_carts` drops only on a skip-branch success; the full branch runs exactly when `task.skip_carts` is 0; each way the iteration ends is tied to the browser's answers: launch failure exactly when there is no proxy or launch raised, a free restart exactly when `load_page` raised or an exception escaped the search, item not found exactly when `locate_item` did not return True, `script` raises exactly when `go_back` or `smooth_scroll(3000)` raised in the full branch, an error exactly when the primary add failed in the full branch, success exactly when every step up to the cart succeeded |
| CycleModel.Run | playberries.py:293-359 | the loop returns only once a budget is 0, and returns True exactly when `error_limit` is not 0; it raises exactly when the last iteration escaped; it runs at most one iteration per oracle answer |
| CycleModel.RunStep | playberries.py:295-348 | one turn of the `while` loop: the run continues from the iteration's end state, or raises there |
| CycleModel.CycleFlags | playberries.py:73-105 | `success` is cleared by `load_page` and set only by a primary add that clicked or by `skip_cart`, and is untouched when launch fails; `launch` appends one user-agent argument exactly when a proxy could be chosen |
| CycleModel.CycleLog | scrapper/playberries.py:246-294 | a browser launched in an iteration is closed, possibly several times, before the iteration ends unless `script` raises; a failed launch opens nothing |
| Playberries.Chrome.constructor | playberries.py:45-54 | the controller copies the task's `skip_carts` and `cycles`, takes `ERROR_LIMIT` and `PAGE_LIMIT`, shares the module's argument list, and starts with `success` false |
| Playberries.Chrome.Launch | playberries.py:73-91 | an empty proxy list raises before anything is appended; otherwise a user-agent argument is appended to the shared list, then the browser is opened or launch raises |
| Playberries.Chrome.Close | playberries.py:93-94 | closes the browser and changes nothing else |
| Playberries.Chrome.LoadPage | playberries.py:96-105 | clears `success` before it loads, whether or not the load raises |
| Playberries.Chrome.PerformSearch | playberries.py:107-133 | returns True; or closes the browser and returns False; or lets the exception out, changing nothing |
| Playberries.Chrome.LocateItem | scrapper/playberries.py:125-147 | the page loop's result is `LocateFrom` from page 1; the browser is closed exactly when it returns False |
| Playberries.Chrome.AddToCart | playberries.py:194-213 | sets `success` only when the click went through and the call is primary |
| Playberries.Chrome.SkipCart | playberries.py:224-226 | uses one of the task's skips and sets `success` |
| Playberries.Chrome.RefreshSkipCarts | playberries.py:228-229 | copies the task's `skip_carts` into the controller and nothing else |
| Playberries.Chrome.CountError | playberries.py:231-232 | spends one unit of `error_limit` and nothing else |
| Playberries.Chrome.ClickRandomItem | playberries.py:250-273 | at most 7 draws; every draw before the last one tried is an advert; it stops early only at a plain card; a slot is clicked exactly when the first plain card drawn could be hovered and clicked, and it is that card's slot; when nothing is clicked, either all attempts went to adverts or a locator raised, or the plain card's hover or click raised |
| Playberries.Chrome.SmoothScroll | playberries.py:138-141 | scrolls to 1, 6, 11, … while the position is below `height`, and to nothing else |
| Playberries.CycleOnce | playberries.py:296-347 | the loop body leaves the controller, the task and the argument list in `Cycle`'s end state and reports `Cycle`'s path |
| Playberries.Script | playberries.py:293-359 | `script`'s outcome is `Run`'s outcome from the initial state, and the task's counters and the shared argument list end as `Run`'s final state says |
| BudgetLemmas.RunAccounting | playberries.py:295-347 | over a whole run, `task.cycles` drops by exactly the number of successful iterations and `error_limit` by exactly the number of charged ones |
| BudgetLemmas.RunBounds | playberries.py:295-347 | `cycles`, `error_limit` and `task.skip_carts` never grow and never drop below zero from a non-negative start |
| BudgetLemmas.SkipCartsStayZero | playberries.py:224-229 | once `task.skip_carts` is 0 it stays 0 for the rest of the run, and the controller's copy is 0 or unchanged |
| BudgetLemmas.ReturnsTrueIffCyclesDone | playberries.py:349-359 | unless both budgets start at 0, `script` returns True exactly when `task.cycles` reached 0 |
| BudgetLemmas.NoCyclesNoLaunch | playberries.py:295-295 | a task with no cycles launches nothing and returns whether `error_limit` is nonzero |
| BudgetLemmas.CycleKeepsLaunchesClosed | playberries.py:296-347 | an iteration that does not raise keeps every launch followed by a close |
| BudgetLemmas.LaunchesAreClosed | scrapper/playberries.py:245-304 | in a run that does not raise, every launched browser is closed before the next launch and before `script` returns |
| BudgetLemmas.LoadFailuresStall | playberries.py:301-306 | any number of iterations whose page load fails leave both budgets unchanged |
| BudgetLemmas.NoProxiesAbort | playberries.py:73-77 | with no proxies every launch raises before it appends, so a run spends exactly its error budget and returns False with nothing else changed |
| BudgetLemmas.ArgsOnlyGrow | scrapper/playberries.py:51-68 | each iteration of a run appends one user-agent argument to the shared list (none without proxies), and earlier arguments are kept |
| BudgetLemmas.SearchFailureClosesThrice | playberries.py:124-133 | when the search fails and pagination then fails, one iteration closes the browser three times and charges one error |
| BudgetLemmas.SecondAddIgnored | playberries.py:324-327 | the random item and the non-primary add do not affect how an iteration ends |
| Scenarios.ScenarioSingleFullCycle | playberries.py:293-359 | one cycle that succeeds in the full branch returns True with one launch and one close |
| Scenarios.ScenarioLocateFailureAborts | playberries.py:313-316 | with one error allowed, an item not found ends the run with False and both cycles still owed |
| Scenarios.ScenarioSkipBranch | playberries.py:328-330 | with skips left, a cycle succeeds through the skip branch and uses one skip |
| Scenarios.ScenarioAddFails | playberries.py:331-339 | a primary add that fails leaves `success` false, closes the browser and charges one error |
| Scenarios.ScenarioSkipNotRefilled | playberries.py:228-229 | with one skip and three cycles, the skip is used once and never refilled |

## Left out

- `get_proxies` (the HTTP request and the pydantic parsing): the proxy list is a parameter.
- `print`, the logger and the console colour: there is no output.
- `wait` and `asyncio.sleep`: timing is not modelled.
- The asynchronous context manager (`__aenter__` and `__aexit__`): the constructor takes the proxy list directly.
- Which proxy `choice` picks: only whether the list is empty matters.
- `select_item_options`, `return_to_first_page` and `click_cart`: each swallows its own exceptions and changes no state the model tracks.
- `next_page`: it is an oracle answer (`PageProbe.nextOk`).
- The page-only calls inside `locate_item` (`smooth_scroll(PAGE_HEIGHT)`, hover and click): they are folded into `PageProbe.itemFound`.
- `Chrome.Close`: raising from `browser.close` is not modelled.
- Exceptions outside `Exception` (cancellation, keyboard interrupt): not modelled.
- `Script`: the loop has no bound in the source. The model runs it over a finite list of oracle answers and reports `Stalled` when the list runs out.
- The controller's `cycles` copy is kept but never read, as in the source.
- `BudgetLemmas.ArgsOnlyGrow` and `Playberries.Script`: a run is modelled with no other task running at the same time. The shared `BROWSER_ARGS` list also receives the appends of every other task's controller, and those appends between this run's iterations are not modelled.
- `Playberries.Chrome.ClickRandomItem`: its effect on the page is not modelled. Only the draws it makes and the slot it clicks are stated.
