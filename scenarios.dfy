/** Concrete runs of the controller: a task followed through `script` with
    fixed browser answers. */
module Scenarios {
  import opened Types
  import opened CycleModel
  import opened Playberries

  const OneProxy: seq<Proxy> := [Proxy("10.0.0.1", 8000, "user", "secret")]

  /** Every call succeeds: the item is on page 1 and every click lands. */
  const AllOk: CycleOracle := CycleOracle(
    "Mozilla/5.0", true, true, Searched, [PageProbe(true, true)], true, true, true, [Draw(2, false, true)], true)

  /** One cycle, three errors allowed, full branch: one launch, one close,
      the cycle budget reaches 0 and `script` returns True. */
  lemma ScenarioSingleFullCycle()
    ensures var r := Run(Start(1, 0, 3, []), [AllOk], OneProxy, 10);
      && r.outcome == Returned(true) && r.final.cycles == 0 && r.final.errorLimit == 3
      && r.final.log == [Launched, Closed] && r.paths == [Succeeded]
  {
    assert LocateFrom(AllOk.pages, 1, 10) == Found(1);
  }

  /** Two cycles, one error allowed, and no page holds the item before
      pagination fails: the only error is spent and `script` returns False
      with both cycles still owed. */
  lemma ScenarioLocateFailureAborts()
    ensures var o := AllOk.(pages := [PageProbe(false, false)]);
      var r := Run(Start(2, 0, 1, []), [o, AllOk], OneProxy, 10);
      && r.outcome == Returned(false) && r.final.errorLimit == 0 && r.final.cycles == 2
      && r.paths == [NotLocated]
  {
    var o := AllOk.(pages := [PageProbe(false, false)]);
    assert LocateFrom(o.pages, 1, 10) == LastPage(1);
  }

  /** With two skips left the cycle runs the skip branch: one skip is used,
      success is set and a cycle is done. */
  lemma ScenarioSkipBranch()
    ensures var r := Cycle(Start(3, 2, 3, []), AllOk, OneProxy, 10);
      && r.path == Succeeded && r.state.skipCarts == 1 && r.state.success && r.state.cycles == 2
  {
    assert LocateFrom(AllOk.pages, 1, 10) == Found(1);
  }

  /** The primary add fails on the full branch: success stays false, the
      browser is closed and one error is charged, with the cycle still owed. */
  lemma ScenarioAddFails()
    ensures var r := Cycle(Start(3, 0, 3, []), AllOk.(addOk := false), OneProxy, 10);
      && r.path == NotAdded && !r.state.success && !r.state.open
      && r.state.errorLimit == 2 && r.state.cycles == 3
  {
    assert LocateFrom(AllOk.pages, 1, 10) == Found(1);
  }

  /** One skip allowed and three cycles: the first cycle skips, and the two
      after it both run the full branch, since nothing refills the task's
      skip counter. */
  lemma ScenarioSkipNotRefilled()
    ensures var r := Run(Start(3, 1, 5, []), [AllOk, AllOk, AllOk], OneProxy, 10);
      && r.outcome == Returned(true) && r.final.cycles == 0 && r.paths == [Succeeded, Succeeded, Succeeded]
      && r.final.skipCarts == 0 && r.final.chromeSkipCarts == 0
  {
    assert LocateFrom(AllOk.pages, 1, 10) == Found(1);
    var s0 := Start(3, 1, 5, []);
    var s1 := Cycle(s0, AllOk, OneProxy, 10).state;
    assert s1.skipCarts == 0 && s1.cycles == 2;
    var s2 := Cycle(s1, AllOk, OneProxy, 10).state;
    assert s2.skipCarts == 0 && s2.cycles == 1 && s2.chromeSkipCarts == 0;
    var s3 := Cycle(s2, AllOk, OneProxy, 10).state;
    assert s3.skipCarts == 0 && s3.cycles == 0 && s3.chromeSkipCarts == 0;
    assert Run(s3, [], OneProxy, 10) == RunResult(Returned(true), s3, []);
    assert [AllOk][1..] == [];
    assert Run(s2, [AllOk], OneProxy, 10).final == s3;
    assert [AllOk, AllOk][1..] == [AllOk];
    assert Run(s1, [AllOk, AllOk], OneProxy, 10).final == s3;
    assert [AllOk, AllOk, AllOk][1..] == [AllOk, AllOk];
  }
}
