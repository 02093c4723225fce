/** The per-bar loop that drives one engine over a tape. The strategy is the arbitrary
    outcome each event carries. */
module BarLoop {
  import opened Sequences
  import opened EngineModel
  import opened EngineRun
  import opened FillEngines

  /** Runs every bar of the tape and leaves the engine as `Run` says. */
  method DriveBars(engine: FillEngine, win: Window, tape: seq<Event>)
    requires engine.View() == FRESH && engine.cfg.pv != 0.0
    modifies engine
    ensures engine.View() == Run(engine.cfg, win, tape).engine
  {
    var barnumber: nat := 0;
    var prevDate: Option<int>, prevClose: Option<real> := None, None;
    var i := 0;
    assert tape[..0] == [];
    assert Run(engine.cfg, win, tape[..0]) == START;
    hide Run, Step;
    while i < |tape|
      invariant 0 <= i <= |tape|
      invariant Run(engine.cfg, win, tape[..i]) == Loop(engine.View(), i, barnumber, prevDate, prevClose)
    {
      RunExtends(engine.cfg, win, tape, i);
      barnumber, prevClose := DriveBar(engine, win, tape[i], i, barnumber, prevDate, prevClose);
      prevDate := Some(tape[i].date);
      i := i + 1;
    }
    assert tape[..i] == tape;
  }

  /** One pass of the loop body, bar `i` of the tape. */
  method DriveBar(engine: FillEngine, win: Window, ev: Event, i: nat, barnumber: nat, prevDate: Option<int>,
                  prevClose: Option<real>)
    returns (barnumber': nat, prevClose': Option<real>)
    requires engine.cfg.pv != 0.0
    modifies engine
    ensures Step(engine.cfg, win, Loop(old(engine.View()), i, barnumber, prevDate, prevClose), ev)
            == Loop(engine.View(), i + 1, barnumber', Some(ev.date), prevClose')
  {
    hide BeforeBar, AfterBar, ExitOnClose;
    barnumber', prevClose' := barnumber, prevClose;
    if i < win.maxBarsBack {
      return;
    }
    barnumber' := barnumber + 1;
    ghost var l := Loop(engine.View(), i, barnumber, prevDate, prevClose);
    var trading := i >= win.tradeFrom;
    if trading && prevDate.Some? && ev.date != prevDate.value && engine.risk.exitOnClose && prevClose.Some? {
      engine.ExitOnClose(prevClose.value, barnumber');
    }
    assert engine.View() == AtBar(engine.cfg, win, l, ev);
    hide AtBar;
    if trading {
      engine.BeforeBar(ev.bar, barnumber');
    }
    if ev.outcome.Returned? {
      if i + 1 >= win.tradeFrom {
        engine.AfterBar(ev.outcome.orders, ev.outcome.risk, ev.bar.close, barnumber');
      }
      prevClose' := Some(ev.bar.close);
    }
  }

  lemma RunExtends(cfg: Config, win: Window, tape: seq<Event>, i: nat)
    requires i < |tape| && cfg.pv != 0.0
    ensures Run(cfg, win, tape[..i + 1]) == Step(cfg, win, Run(cfg, win, tape[..i]), tape[i])
  {
    assert tape[..i + 1][..i] == tape[..i];
  }
}
