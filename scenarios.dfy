/** Clients of the engine that use nothing but its contracts: worked
    examples of attach, reports and destroy. */
module Scenarios {
  import opened Wrappers
  import opened Edges
  import opened Ranges
  import opened Reports
  import opened Observer

  /** Attaching with the full tier chain joins the three range watchers
      and no focus-family one. */
  method AttachFullChain() {
    var engine := new Engine();
    var ops := engine.Observe([Tier(Compress), Tier(Hidden), Tier(Peep), Tier(Show)], Some(Custom(1)));
    var handle := engine.Attach(ops, 7);
    assert engine.Get(DeployWatcher).targets == {7};
    assert engine.Get(CoreWatcher).targets == {};
  }

  /** For an element whose only record is `ops`, a show-watcher report
      sets `show` with one hook call, and a later deploy-watcher report
      saying "not intersecting" sets `compress`. */
  method RangeReports(engine: Engine, ops: Operations)
    requires engine.Valid() && engine.trackers == map[7 := ops]
    requires ops.options.change == Custom(1) && ops.focus == 0
    modifies ops`state, ops`focus
  {
    assert Owned(engine.trackers, ops) == {7};
    var outside := Rect(0.0, 0.0, 0.0, 0.0);
    var calls := engine.Deliver(ShowWatcher, [Report(7, true, None, outside)]);
    assert ops.state == Some(Show) && ops.focus == 0;
    assert calls == [Call(Custom(1), ops, Some(Show), 0)];
    calls := engine.Deliver(DeployWatcher, [Report(7, false, None, outside)]);
    assert ops.state == Some(Compress);
  }

  /** Destroying twice leaves the element in no watcher, keeps its
      back-reference, and a report still queued for it is delivered. */
  method DestroyThenQueuedReport(engine: Engine, ops: Operations)
    requires engine.Valid() && engine.trackers == map[7 := ops]
    modifies engine.deploy`targets, engine.peep`targets, engine.show`targets, engine.core`targets
    modifies engine.horizon`targets, engine.vertical`targets, engine.box`targets
    modifies ops`state, ops`focus
  {
    engine.Destroy(Detach(7));
    engine.Destroy(Detach(7));
    assert forall w :: 7 !in engine.Get(w).targets;
    assert engine.trackers[7] == ops;
    assert Owned(engine.trackers, ops) == {7};
    var calls := engine.Deliver(PeepWatcher, [Report(7, true, None, Rect(0.0, 0.0, 0.0, 0.0))]);
    assert ops.state == Some(Peep) && |calls| == 1;
  }

  /** A `focus` request joins only the core watcher and gets the no-op hook
      when none is given. */
  method AttachFocusOnly() {
    var engine := new Engine();
    var ops := engine.Observe([Focus], None);
    assert ops.options.change == Noop;
    var handle := engine.Attach(ops, 3);
    assert forall w :: w != CoreWatcher ==> engine.Get(w).targets == {};
  }

  /** A core-watcher report without root bounds changes nothing and calls
      nothing; an element exactly filling the root gets the focus bit alone
      and one hook call; swapping the hook then keeps `state` and `focus`. */
  method FocusReports(engine: Engine, ops: Operations)
    requires engine.Valid() && engine.trackers == map[3 := ops]
    requires ops.options.change == Noop && ops.state == None && ops.focus == 0
    modifies ops
  {
    assert Owned(engine.trackers, ops) == {3};
    var r := Rect(10.0, 300.0, 200.0, 20.0);
    var unframed := [Report(3, true, None, r)];
    assert unframed[..0] == [];
    var calls := engine.Deliver(CoreWatcher, unframed);
    assert ops.focus == FocusFold(unframed, {3}, 0) == 0;
    assert calls == [];

    ExactFillIsFocusOnly(r);
    calls := engine.Deliver(CoreWatcher, [Report(3, true, Some(r), r)]);
    assert ops.focus == 0x10 && ops.state == None;
    assert calls == [Call(Noop, ops, None, 0x10)];

    var self := ops.SetOptions(Some(Custom(2)));
    assert self == ops && ops.focus == 0x10 && ops.state == None;
  }

  /** A focus-family report without root bounds is skipped before the
      target's record is looked up, so it may name an element that was
      never attached. */
  method UnframedReportForUnknownElement() {
    var engine := new Engine();
    var unframed := [Report(5, false, None, Rect(0.0, 0.0, 0.0, 0.0))];
    assert unframed[..0] == [];
    var calls := engine.Deliver(BoxWatcher, unframed);
    assert calls == [];
  }
}
