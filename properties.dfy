/** What the retry and budget state machine guarantees over a whole run of
    `script`'s loop, and what it does not (termination, refilling skip_carts). */
module BudgetLemmas {
  import opened Types
  import opened CycleModel

  /** The number of iterations that completed a cycle. */
  function CountSucceeded(paths: seq<Path>): nat
  {
    if |paths| == 0 then 0 else (if paths[0] == Succeeded then 1 else 0) + CountSucceeded(paths[1..])
  }

  /** The number of iterations that ran `count_error`. */
  function CountCharged(paths: seq<Path>): nat
  {
    if |paths| == 0 then 0 else (if Charged(paths[0]) then 1 else 0) + CountCharged(paths[1..])
  }

  /** `n` iterations that the browser answers in the same way. */
  function Repeat(o: CycleOracle, n: nat): (r: seq<CycleOracle>)
    ensures |r| == n
  {
    if n == 0 then [] else [o] + Repeat(o, n - 1)
  }

  /** Every launch in the log is followed at once by a close. */
  ghost predicate LaunchesClosed(log: seq<Event>)
  {
    forall i :: 0 <= i < |log| && log[i] == Launched ==> i + 1 < |log| && log[i + 1] == Closed
  }

  /** `task.cycles` goes down by exactly the number of completed cycles, and
      `error_limit` by exactly the number of charged failures. */
  lemma {:induction false} RunAccounting(s: State, os: seq<CycleOracle>, proxies: seq<Proxy>, pageLimit: int)
    decreases |os|
    ensures var r := Run(s, os, proxies, pageLimit);
      && r.final.cycles == s.cycles - CountSucceeded(r.paths)
      && r.final.errorLimit == s.errorLimit - CountCharged(r.paths)
  {
    if s.cycles != 0 && s.errorLimit != 0 && |os| > 0 {
      var step := Cycle(s, os[0], proxies, pageLimit);
      if step.path != Escaped {
        RunAccounting(step.state, os[1..], proxies, pageLimit);
        var rest := Run(step.state, os[1..], proxies, pageLimit);
        assert ([step.path] + rest.paths)[1..] == rest.paths;
      }
    }
  }

  /** The three counters never grow, and none of them drops below zero from a
      non-negative start. */
  lemma {:induction false} RunBounds(s: State, os: seq<CycleOracle>, proxies: seq<Proxy>, pageLimit: int)
    decreases |os|
    ensures var r := Run(s, os, proxies, pageLimit);
      && r.final.cycles <= s.cycles && (s.cycles >= 0 ==> r.final.cycles >= 0)
      && r.final.errorLimit <= s.errorLimit && (s.errorLimit >= 0 ==> r.final.errorLimit >= 0)
      && r.final.skipCarts <= s.skipCarts && (s.skipCarts >= 0 ==> r.final.skipCarts >= 0)
  {
    if s.cycles != 0 && s.errorLimit != 0 && |os| > 0 {
      var step := Cycle(s, os[0], proxies, pageLimit);
      if step.path != Escaped {
        RunBounds(step.state, os[1..], proxies, pageLimit);
      }
    }
  }

  /** Once `task.skip_carts` is 0 it stays 0: `refresh_skip_carts` copies the
      task's counter into the controller's and never refills the task's, so
      every later cycle that reaches the cart runs the full branch. */
  lemma {:induction false} SkipCartsStayZero(s: State, os: seq<CycleOracle>, proxies: seq<Proxy>, pageLimit: int)
    requires s.skipCarts == 0
    decreases |os|
    ensures var r := Run(s, os, proxies, pageLimit);
      r.final.skipCarts == 0 && (r.final.chromeSkipCarts == 0 || r.final.chromeSkipCarts == s.chromeSkipCarts)
  {
    if s.cycles != 0 && s.errorLimit != 0 && |os| > 0 {
      var step := Cycle(s, os[0], proxies, pageLimit);
      if step.path != Escaped {
        SkipCartsStayZero(step.state, os[1..], proxies, pageLimit);
      }
    }
  }

  /** The result is decided by the error limit first; unless both budgets
      start at zero, `script` returns True exactly when the cycles ran out. */
  lemma {:induction false} ReturnsTrueIffCyclesDone(s: State, os: seq<CycleOracle>, proxies: seq<Proxy>, pageLimit: int)
    requires s.cycles != 0 || s.errorLimit != 0
    decreases |os|
    ensures var r := Run(s, os, proxies, pageLimit);
      r.outcome.Returned? ==> (r.outcome.ok <==> r.final.cycles == 0)
  {
    if s.cycles != 0 && s.errorLimit != 0 && |os| > 0 {
      var step := Cycle(s, os[0], proxies, pageLimit);
      if step.path != Escaped {
        ReturnsTrueIffCyclesDone(step.state, os[1..], proxies, pageLimit);
      }
    }
  }

  /** With no cycles left the loop body never runs: nothing is launched and the
      result is that of the error-limit check alone. */
  lemma NoCyclesNoLaunch(s: State, os: seq<CycleOracle>, proxies: seq<Proxy>, pageLimit: int)
    requires s.cycles == 0
    ensures Run(s, os, proxies, pageLimit) == RunResult(Returned(s.errorLimit != 0), s, [])
  {
  }

  /** One iteration keeps every launch closed, unless `script` raises. */
  lemma CycleKeepsLaunchesClosed(s: State, o: CycleOracle, proxies: seq<Proxy>, pageLimit: int)
    requires LaunchesClosed(s.log)
    requires Cycle(s, o, proxies, pageLimit).path != Escaped
    ensures LaunchesClosed(Cycle(s, o, proxies, pageLimit).state.log)
  {
    CycleLog(s, o, proxies, pageLimit);
    var r := Cycle(s, o, proxies, pageLimit);
    var log, n := r.state.log, |s.log|;
    if r.path != LaunchRaised {
      forall i | 0 <= i < |log| && log[i] == Launched
        ensures i + 1 < |log| && log[i + 1] == Closed
      {
        if i < n {
          assert log[..n + 1][i] == s.log[i];
        } else {
          assert i == n;
          assert log[n + 1] == Closed;
        }
      }
    }
  }

  /** In a run that does not raise, every browser launched is closed before
      the next launch and before `script` returns. */
  lemma {:induction false} LaunchesAreClosed(s: State, os: seq<CycleOracle>, proxies: seq<Proxy>, pageLimit: int)
    requires LaunchesClosed(s.log)
    decreases |os|
    ensures var r := Run(s, os, proxies, pageLimit);
      !r.outcome.Raised? ==> LaunchesClosed(r.final.log)
  {
    if s.cycles != 0 && s.errorLimit != 0 && |os| > 0 {
      var step := Cycle(s, os[0], proxies, pageLimit);
      if step.path != Escaped {
        CycleKeepsLaunchesClosed(s, os[0], proxies, pageLimit);
        LaunchesAreClosed(step.state, os[1..], proxies, pageLimit);
      }
    }
  }

  /** `load_page` failures charge nothing, so the loop need not end: any number
      of iterations whose page fails to load leave both budgets as they were. */
  lemma {:induction false} LoadFailuresStall(s: State, o: CycleOracle, n: nat, proxies: seq<Proxy>, pageLimit: int)
    requires s.cycles != 0 && s.errorLimit != 0
    requires |proxies| > 0 && o.launchOk && !o.loadOk
    decreases n
    ensures var r := Run(s, Repeat(o, n), proxies, pageLimit);
      && r.outcome == Stalled && |r.paths| == n
      && r.final.cycles == s.cycles && r.final.errorLimit == s.errorLimit
  {
    if n > 0 {
      var step := Cycle(s, o, proxies, pageLimit);
      assert Repeat(o, n)[0] == o && Repeat(o, n)[1..] == Repeat(o, n - 1);
      LoadFailuresStall(step.state, o, n - 1, proxies, pageLimit);
    }
  }

  /** With an empty proxy list every `launch` raises before it appends an
      argument, so the run spends its whole error budget and returns False,
      with nothing else changed. */
  lemma {:induction false} NoProxiesAbort(s: State, os: seq<CycleOracle>, proxies: seq<Proxy>, pageLimit: int)
    requires |proxies| == 0 && s.cycles != 0 && 0 <= s.errorLimit <= |os|
    decreases |os|
    ensures var r := Run(s, os, proxies, pageLimit);
      r.outcome == Returned(false) && r.final == s.(errorLimit := 0) && |r.paths| == s.errorLimit
  {
    if s.errorLimit != 0 {
      NoProxiesAbort(CountError(s), os[1..], proxies, pageLimit);
    }
  }

  /** The argument `launch` appends starts with the user-agent flag. */
  predicate IsUserAgentArg(arg: string)
  {
    |arg| >= 13 && arg[..13] == "--user-agent="
  }

  /** The shared argument list only grows: each iteration of a run appends one
      user-agent argument (none when there is no proxy to choose), and the
      arguments already there are kept. */
  lemma {:induction false} ArgsOnlyGrow(s: State, os: seq<CycleOracle>, proxies: seq<Proxy>, pageLimit: int)
    decreases |os|
    ensures var r := Run(s, os, proxies, pageLimit);
      && |r.final.args| == |s.args| + (if |proxies| == 0 then 0 else |r.paths|)
      && r.final.args[..|s.args|] == s.args
      && forall k :: |s.args| <= k < |r.final.args| ==> IsUserAgentArg(r.final.args[k])
  {
    if s.cycles != 0 && s.errorLimit != 0 && |os| > 0 {
      var step := Cycle(s, os[0], proxies, pageLimit);
      CycleFlags(s, os[0], proxies, pageLimit);
      if |proxies| > 0 {
        assert IsUserAgentArg(UserAgentArg(os[0].userAgent));
      }
      if step.path != Escaped {
        ArgsOnlyGrow(step.state, os[1..], proxies, pageLimit);
        var r := Run(step.state, os[1..], proxies, pageLimit);
        assert r.final.args[..|s.args|] == r.final.args[..|step.state.args|][..|s.args|];
      }
    }
  }

  /** When `perform_search` fails it closes the browser itself and returns a
      False that nobody reads; if `locate_item` then gives up on pagination,
      the browser is closed three times in that one iteration. */
  lemma SearchFailureClosesThrice(s: State, o: CycleOracle, proxies: seq<Proxy>, pageLimit: int)
    requires |proxies| > 0 && o.launchOk && o.loadOk && o.search == SearchReturnedFalse
    requires LocateFrom(o.pages, 1, pageLimit).LastPage?
    ensures var r := Cycle(s, o, proxies, pageLimit);
      && r.path == NotLocated && r.state.errorLimit == s.errorLimit - 1
      && r.state.log == s.log + [Launched, Closed, Closed, Closed]
  {
  }

  /** The second, non-primary add and the random item it follows have no say
      in how the iteration ends. */
  lemma SecondAddIgnored(s: State, o: CycleOracle, proxies: seq<Proxy>, pageLimit: int, clickOk: bool, draws: seq<Draw>)
    ensures Cycle(s, o.(secondAddOk := clickOk, draws := draws), proxies, pageLimit) == Cycle(s, o, proxies, pageLimit)
  {
  }
}
