/** What the handover machine does in each situation: the events, the timer and
  the actions it owes. */
module HandoverTables {
  import opened History
  import opened Handover

  function Power2(n: nat): nat {
    if n == 0 then 1 else 2 * Power2(n - 1)
  }

  /** One second, doubled for every wait or failure so far, 32 s at most. */
  function Pause(n: nat): nat {
    1000 * Power2(if n < 5 then n else 5)
  }

  lemma BackoffIs(n: nat)
    ensures BackoffMs(n) == Pause(n)
  {
    assert Power2(5) == 2 * Power2(4) && Power2(4) == 2 * Power2(3) && Power2(3) == 2 * Power2(2);
    assert Power2(2) == 2 * Power2(1) && Power2(1) == 2 * Power2(0);
  }

  /** The link report: UP when an address that reaches off-link is found after
    DOWN; DOWN when none is, also on a link-local network, after UP. */
  function LinkEvents(events: Log<NetEvent>, down: bool, use: Usable): Log<NetEvent> {
    if use.Routable? then (if down then Then(events, Up) else events)
    else (if down then events else Then(events, Down))
  }

  /** Accounts are told when the link goes down. */
  function Marks(down: bool, use: Usable): seq<Action> {
    if !use.Routable? && !down then [MarkReconnecting] else []
  }

  /** settle_handler on an announced round. A network that moved again starts the
    debounce over. Without an address it waits, a little longer each time, on a
    count of its own. With one it resets the transports: success re-registers and
    migrates under a new generation; failure is counted and retried later, until
    the budget is spent and everything is handed back. */
  lemma {:induction false} SettleIs(m: Monitor, cfg: Config, moved: bool, use: Usable, ok: bool)
    requires m.settle.Armed? && (m.resetPending || m.force)
    ensures var (t, owed) := Step(m, cfg, SettleTimer(moved, use, ok));
            var linked := LinkEvents(m.events, m.down, use);
            var marks := Marks(m.down, use);
            if moved then t == m.(resetPending := true, settle := Armed(cfg.settleMs)) && owed == []
            else
              && t.down == !use.Routable?
              && if use.NoAddress? then
                   && t == m.(down := t.down, events := linked, waitTicks := m.waitTicks + 1, settle := Armed(Pause(m.waitTicks)))
                   && owed == marks
                 else if ok then
                   && t == m.(down := t.down, events := Then(linked, TransportReset), waitTicks := 0, settle := Stopped,
                              attempt := 0, resetPending := false, force := false, announced := false, gen := m.gen + 1)
                   && owed == marks + [Reregister] + if cfg.reinviteCalls then [MigrateCalls] else []
                 else if m.attempt + 1 < cfg.maxAttempts then
                   && t == m.(down := t.down, events := Then(linked, HandoverFailed(m.attempt + 1)), waitTicks := 0,
                              settle := Armed(Pause(m.attempt + 1)), attempt := m.attempt + 1)
                   && owed == marks
                 else
                   && t == m.(down := t.down, events := Then(linked, HandoverFailed(m.attempt + 1)), waitTicks := 0,
                              settle := Stopped, attempt := 0, announced := false, handoverStart := 0)
                   && owed == marks + [AccountsToRetry, FailPendingCalls]
  {
    hide BackoffMs, Pause;
    BackoffIs(m.waitTicks);
    BackoffIs(m.attempt + 1);
    if !moved {
      LinkIs(m.(settle := Stopped), use);
      var linked := ReportLink(m.(settle := Stopped), use).0;
      if !use.NoAddress? { ResetIs(linked.(waitTicks := 0), cfg, ok); }
      hide ReportLink, ResetAnswered;
      assert Marks(m.down, use) + [] == Marks(m.down, use);
      assert Marks(m.down, use) + ([Reregister] + if cfg.reinviteCalls then [MigrateCalls] else [])
          == Marks(m.down, use) + [Reregister] + if cfg.reinviteCalls then [MigrateCalls] else [];
    }
  }

  lemma LinkIs(m: Monitor, use: Usable)
    ensures ReportLink(m, use)
         == (m.(down := !use.Routable?, events := LinkEvents(m.events, m.down, use)), Marks(m.down, use))
  {
  }

  lemma ResetIs(m: Monitor, cfg: Config, ok: bool)
    ensures ResetAnswered(m, cfg, ok) ==
            if ok then
              (m.(events := Then(m.events, TransportReset), attempt := 0, resetPending := false, force := false,
                  announced := false, gen := m.gen + 1),
               [Reregister] + if cfg.reinviteCalls then [MigrateCalls] else [])
            else if m.attempt + 1 < cfg.maxAttempts then
              (m.(events := Then(m.events, HandoverFailed(m.attempt + 1)), settle := Armed(BackoffMs(m.attempt + 1)),
                  attempt := m.attempt + 1), [])
            else
              (m.(events := Then(m.events, HandoverFailed(m.attempt + 1)), attempt := 0, announced := false,
                  handoverStart := 0), [AccountsToRetry, FailPendingCalls])
  {
    hide BackoffMs;
  }

  /** netmon_trigger: a change found by the scan, or forced by the app, announces a
    round once and starts the debounce over; nothing changed is nothing done. */
  lemma {:induction false} TriggerIs(m: Monitor, cfg: Config, forced: bool, changed: bool, now: nat)
    ensures var (t, owed) := Step(m, cfg, Triggered(forced, changed, now));
            var noted := m.(resetPending := m.resetPending || changed, force := m.force || forced);
            if !noted.resetPending && !noted.force then t == m && owed == []
            else if m.announced then t == noted.(settle := Armed(cfg.settleMs)) && owed == []
            else
              && t == noted.(announced := true, handoverStart := now, events := Then(m.events, ChangeDetected),
                             settle := Armed(cfg.settleMs))
              && owed == [MarkReconnecting]
  {
  }
}
