/** The debounce and transport-reset machine of src/netmon.c.

  An address change (or the app) announces a handover, a settle timer debounces
  it, and the settle handler either waits for an address, fails the transport
  reset within a budget, or completes the handover.  What the machine asks the
  rest of the monitor to do (accounts, calls) is returned as a list of actions,
  in the order in which the handler performs them. */
module Handover {
  import opened History

  /** The monitor-wide part of VOXSDK_EV_NETWORK. */
  datatype NetEvent =
    | ChangeDetected
    | Down
    | Up
    | HandoverFailed(attempt: nat)
    | TransportReset

  /** Result of scanning the interfaces: nothing at all, only a link-local
    address (enough to bind), or an address that reaches off-link. */
  datatype Usable = NoAddress | LinkLocal | Routable

  datatype Action =
    | MarkReconnecting
    | AccountsToRetry
    | FailPendingCalls
    | Reregister
    | MigrateCalls

  datatype Config = Config(settleMs: nat, maxAttempts: nat, reinviteCalls: bool)

  /** vox_netmon_init replaces a zero attempt budget by the default. */
  predicate ValidConfig(cfg: Config) {
    cfg.maxAttempts >= 1
  }

  datatype Monitor = Monitor(
    resetPending: bool,
    force: bool,
    announced: bool,
    down: bool,
    gen: nat,
    attempt: nat,
    waitTicks: nat,
    handoverStart: nat,
    settle: Timer,
    events: Log<NetEvent>)

  function Emit(m: Monitor, e: NetEvent): Monitor {
    m.(events := Then(m.events, e))
  }

  function Init(down: bool): Monitor {
    Monitor(false, false, false, down, 0, 0, 0, 0, Stopped, Empty)
  }

  /** 1, 2, 4, 8, 16, 32 s. */
  function BackoffMs(attempt: nat): nat {
    match attempt
    case 0 => 1000
    case 1 => 2000
    case 2 => 4000
    case 3 => 8000
    case 4 => 16000
    case _ => 32000
  }

  // ---------------------------------------------------------------------
  // Handlers
  // ---------------------------------------------------------------------

  /** netmon_trigger: `changed` is what the address scan found. */
  function Trigger(m: Monitor, cfg: Config, forced: bool, changed: bool, now: nat): (Monitor, seq<Action>) {
    var m := m.(resetPending := m.resetPending || changed, force := m.force || forced);
    if !m.resetPending && !m.force then
      (m, [])
    else if m.announced then
      (m.(settle := Armed(cfg.settleMs)), [])
    else
      (Emit(m.(announced := true, handoverStart := now), ChangeDetected).(settle := Armed(cfg.settleMs)),
       [MarkReconnecting])
  }

  /** The link-state report inside apply_handover. */
  function ReportLink(m: Monitor, use: Usable): (Monitor, seq<Action>) {
    if use.Routable? then
      (if m.down then Emit(m.(down := false), Up) else m, [])
    else if m.down then
      (m, [])
    else
      (Emit(m.(down := true), Down), [MarkReconnecting])
  }

  /** What apply_handover does once uag_reset_transp has answered. */
  function ResetAnswered(m: Monitor, cfg: Config, ok: bool): (Monitor, seq<Action>) {
    if ok then
      (Emit(m.(attempt := 0, resetPending := false, force := false, announced := false, gen := m.gen + 1),
            TransportReset),
       [Reregister] + if cfg.reinviteCalls then [MigrateCalls] else [])
    else
      var f := Emit(m.(attempt := m.attempt + 1), HandoverFailed(m.attempt + 1));
      if f.attempt < cfg.maxAttempts then
        (f.(settle := Armed(BackoffMs(f.attempt))), [])
      else
        (f.(attempt := 0, announced := false, handoverStart := 0), [AccountsToRetry, FailPendingCalls])
  }

  function ApplyHandover(m: Monitor, cfg: Config, use: Usable, ok: bool): (Monitor, seq<Action>) {
    var (linked, marked) := ReportLink(m, use);
    if use.NoAddress? then
      (linked.(settle := Armed(BackoffMs(m.waitTicks)), waitTicks := m.waitTicks + 1), marked)
    else
      var (done, owed) := ResetAnswered(linked.(waitTicks := 0), cfg, ok);
      (done, marked + owed)
  }

  /** settle_handler; the timer that fired is no longer running. */
  function SettleFires(m: Monitor, cfg: Config, changed: bool, use: Usable, ok: bool): (Monitor, seq<Action>) {
    var m := m.(settle := Stopped);
    if changed then
      (m.(resetPending := true, settle := Armed(cfg.settleMs)), [])
    else if !m.resetPending && !m.force then
      (m, [])
    else
      ApplyHandover(m, cfg, use, ok)
  }

  // ---------------------------------------------------------------------
  // Runs
  // ---------------------------------------------------------------------

  /** An interface poll is `Triggered(false, ...)`, voxsdk_network_changed is
    `Triggered(true, ...)`. */
  datatype Input =
    | Triggered(forced: bool, changed: bool, now: nat)
    | SettleTimer(moved: bool, use: Usable, resetOk: bool)

  function Step(m: Monitor, cfg: Config, i: Input): (Monitor, seq<Action>) {
    match i
    case Triggered(forced, changed, now) => Trigger(m, cfg, forced, changed, now)
    case SettleTimer(moved, use, ok) =>
      if m.settle.Armed? then SettleFires(m, cfg, moved, use, ok) else (m, [])
  }

  function Run(cfg: Config, down: bool, inputs: Log<Input>): Monitor {
    match inputs
    case Empty => Init(down)
    case Then(past, i) => Step(Run(cfg, down, past), cfg, i).0
  }

  // ---------------------------------------------------------------------
  // The trace grammar, independently of the machine
  // ---------------------------------------------------------------------

  /** Where a reader of the events is: inside a round, after how many failures
    of it, and with which link state last reported. */
  datatype Phase = Phase(open: bool, fails: nat, down: bool)

  function Read(p: Phase, e: NetEvent, maxAttempts: nat): Option<Phase> {
    match e
    case ChangeDetected => if p.open then None else Some(p.(open := true, fails := 0))
    case Down => if p.open && !p.down then Some(p.(down := true)) else None
    case Up => if p.open && p.down then Some(p.(down := false)) else None
    case TransportReset => if p.open then Some(p.(open := false, fails := 0)) else None
    case HandoverFailed(k) =>
      if !p.open || k != p.fails + 1 || k > maxAttempts then None
      else if k == maxAttempts then Some(p.(open := false, fails := 0))
      else Some(p.(fails := k))
  }

  /** The grammar: the phase after the whole log, or None for a log that no
    well-behaved monitor emits. */
  function Replay(log: Log<NetEvent>, down: bool, maxAttempts: nat): Option<Phase> {
    match log
    case Empty => Some(Phase(false, 0, down))
    case Then(past, e) =>
      match Replay(past, down, maxAttempts)
      case None => None
      case Some(p) => Read(p, e, maxAttempts)
  }

  /** The failure numbers reported since the round was announced. */
  function FailsOfRound(log: Log<NetEvent>): seq<nat> {
    match log
    case Empty => []
    case Then(past, e) =>
      if e.ChangeDetected? then []
      else if e.HandoverFailed? then FailsOfRound(past) + [e.attempt]
      else FailsOfRound(past)
  }

  function ResetsOfRound(log: Log<NetEvent>): nat {
    match log
    case Empty => 0
    case Then(past, e) =>
      if e.ChangeDetected? then 0
      else ResetsOfRound(past) + if e.TransportReset? then 1 else 0
  }

  /** 1, 2, ..., |s|. */
  predicate CountsUp(s: seq<nat>) {
    forall i :: 0 <= i < |s| ==> s[i] == i + 1
  }

  predicate IsChange(e: NetEvent) { e.ChangeDetected? }
  predicate IsReset(e: NetEvent) { e.TransportReset? }
  predicate IsDown(e: NetEvent) { e.Down? }
  predicate IsUp(e: NetEvent) { e.Up? }

  ghost predicate HasChange(log: Log<NetEvent>) {
    Count(log, IsChange) > 0
  }

  /** The shape of a round, read off any log of the grammar: the failures of the
    round count 1, 2, ..., k; while it is open it has no reset and k is below
    the budget; once closed it ended with exactly one reset and k below the
    budget, or with no reset and k equal to the budget. */
  lemma {:induction false} RoundShape(log: Log<NetEvent>, down: bool, maxAttempts: nat)
    requires maxAttempts >= 1
    requires Replay(log, down, maxAttempts).Some?
    ensures CountsUp(FailsOfRound(log))
    ensures var p := Replay(log, down, maxAttempts).value;
            var k := |FailsOfRound(log)|;
            if p.open then k == p.fails < maxAttempts && ResetsOfRound(log) == 0
            else if HasChange(log) then
              (ResetsOfRound(log) == 1 && k < maxAttempts) || (ResetsOfRound(log) == 0 && k == maxAttempts)
            else ResetsOfRound(log) == 0 && k == 0
    ensures Replay(log, down, maxAttempts).value.open ==> HasChange(log)
  {
    match log
    case Empty =>
    case Then(past, e) =>
      RoundShape(past, down, maxAttempts);
      var p := Replay(past, down, maxAttempts).value;
      assert Read(p, e, maxAttempts).Some?;
  }

  /** Every announced round closes, or is the one in progress: announcements
    are resets plus exhausted budgets plus the open round. */
  lemma {:induction false} RoundsClose(log: Log<NetEvent>, down: bool, maxAttempts: nat)
    requires maxAttempts >= 1
    requires Replay(log, down, maxAttempts).Some?
    ensures Count(log, IsChange)
         == Count(log, IsReset)
          + Count(log, (e: NetEvent) => e == HandoverFailed(maxAttempts))
          + (if Replay(log, down, maxAttempts).value.open then 1 else 0)
  {
    match log
    case Empty =>
    case Then(past, e) =>
      RoundsClose(past, down, maxAttempts);
      var p := Replay(past, down, maxAttempts).value;
      assert Read(p, e, maxAttempts).Some?;
  }

  /** DOWN and UP strictly alternate: their difference is the change of the link
    state, so it never leaves {-1, 0, 1}. */
  lemma {:induction false} DownUpAlternate(log: Log<NetEvent>, down: bool, maxAttempts: nat)
    requires Replay(log, down, maxAttempts).Some?
    ensures Count(log, IsDown) - Count(log, IsUp)
         == (if Replay(log, down, maxAttempts).value.down then 1 else 0) - (if down then 1 else 0)
  {
    match log
    case Empty =>
    case Then(past, e) =>
      DownUpAlternate(past, down, maxAttempts);
      var p := Replay(past, down, maxAttempts).value;
      assert Read(p, e, maxAttempts).Some?;
  }

  // ---------------------------------------------------------------------
  // The machine obeys the grammar
  // ---------------------------------------------------------------------

  /** What every handler keeps. */
  predicate Good(m: Monitor, cfg: Config, down: bool) {
    && (m.settle.Armed? <==> m.announced)
    && (m.announced ==> m.resetPending || m.force)
    && m.attempt < cfg.maxAttempts
    && (!m.announced ==> m.attempt == 0)
    && Replay(m.events, down, cfg.maxAttempts) == Some(Phase(m.announced, m.attempt, m.down))
  }

  lemma StepKeepsGood(m: Monitor, cfg: Config, down: bool, i: Input)
    requires ValidConfig(cfg) && Good(m, cfg, down)
    ensures Good(Step(m, cfg, i).0, cfg, down)
  {
    match i
    case Triggered(_, _, _) =>
    case SettleTimer(moved, use, ok) =>
      if m.settle.Armed? && !moved {
        var m0 := m.(settle := Stopped);
        var linked := ReportLink(m0, use).0;
        assert Replay(linked.events, down, cfg.maxAttempts) == Some(Phase(true, m.attempt, linked.down));
      }
  }

  /** Over every run the settle timer is armed exactly while a round is
    announced, and the events spell a word of the grammar whose phase is the
    monitor's own state. */
  lemma {:induction false} HandoverTraceGrammar(cfg: Config, down: bool, inputs: Log<Input>)
    requires ValidConfig(cfg)
    ensures Good(Run(cfg, down, inputs), cfg, down)
  {
    match inputs
    case Empty =>
    case Then(past, i) =>
      HandoverTraceGrammar(cfg, down, past);
      StepKeepsGood(Run(cfg, down, past), cfg, down, i);
  }

  /** Waiting for an address never spends the reset budget, never reports a
    failure and always leaves the settle timer armed; the only step that spends
    the budget is a failed reset, by one. */
  lemma OnlyFailedResetsSpendTheBudget(m: Monitor, cfg: Config, down: bool, i: Input)
    requires ValidConfig(cfg) && Good(m, cfg, down)
    ensures var m' := Step(m, cfg, i).0;
            m'.attempt > m.attempt <==>
              i.SettleTimer? && m.announced && !i.moved && !i.use.NoAddress? && !i.resetOk
              && m.attempt + 1 < cfg.maxAttempts
    ensures i.SettleTimer? && i.use.NoAddress? && m.announced ==>
              Step(m, cfg, i).0.settle.Armed? && Step(m, cfg, i).0.attempt == m.attempt
  {
  }

  /** A forced change on a network that is up, and the reset that completes it. */
  lemma ForcedHandover(cfg: Config, now: nat)
    ensures var (announced, first) := Step(Init(false), cfg, Triggered(true, false, now));
            && announced.gen == 0 && announced.handoverStart == now && announced.settle.Armed? && !announced.down
            && first == [MarkReconnecting]
    ensures var announced := Step(Init(false), cfg, Triggered(true, false, now)).0;
            var (done, owed) := Step(announced, cfg, SettleTimer(false, Routable, true));
            && done.gen == 1 && done.settle == Stopped
            && owed == [Reregister] + if cfg.reinviteCalls then [MigrateCalls] else []
    ensures var announced := Step(Init(false), cfg, Triggered(true, false, now)).0;
            Step(announced, cfg, SettleTimer(false, NoAddress, true)).1 == [MarkReconnecting]
  {
    var m := Step(Init(false), cfg, Triggered(true, false, now)).0;
    assert m.force && !m.down && m.settle.Armed?;
    var linked := m.(settle := Stopped);
    assert ReportLink(linked, Routable) == (linked, []);
    var owed := ResetAnswered(linked.(waitTicks := 0), cfg, true).1;
    assert [] + owed == owed;
  }

  // ---------------------------------------------------------------------
  // The handlers as they run, on the monitor record
  // ---------------------------------------------------------------------

  class NetMonitor {
    var resetPending: bool
    var force: bool
    var announced: bool
    var down: bool
    var gen: nat
    var attempt: nat
    var waitTicks: nat
    var handoverStart: nat
    var settle: Timer
    var events: Log<NetEvent>
    const cfg: Config
    const startedDown: bool

    /** The settle timer runs exactly while a round is announced, and the events
      so far are a word of the grammar. */
    ghost predicate Valid()
      reads this
    {
      ValidConfig(cfg) && Good(View(), cfg, startedDown)
    }

    ghost function View(): Monitor
      reads this
    {
      Monitor(resetPending, force, announced, down, gen, attempt, waitTicks, handoverStart, settle, events)
    }

    constructor (cfg: Config, noRoute: bool)
      requires ValidConfig(cfg)
      ensures Valid() && View() == Init(noRoute) && this.cfg == cfg
    {
      this.cfg, startedDown := cfg, noRoute;
      resetPending, force, announced, down := false, false, false, noRoute;
      gen, attempt, waitTicks, handoverStart := 0, 0, 0, 0;
      settle, events := Stopped, Empty;
    }

    method Emit(e: NetEvent)
      modifies this`events
      ensures events == Then(old(events), e)
    {
      events := Then(events, e);
    }

    method NetworkTriggered(forced: bool, changed: bool, now: nat) returns (owed: seq<Action>)
      requires Valid()
      modifies this
      ensures Valid() && (View(), owed) == Trigger(old(View()), cfg, forced, changed, now)
    {
      hide Good;
      StepKeepsGood(View(), cfg, startedDown, Triggered(forced, changed, now));
      owed := [];
      if changed { resetPending := true; }
      if forced { force := true; }
      if !resetPending && !force { return; }
      if !announced {
        announced := true;
        handoverStart := now;
        Emit(ChangeDetected);
        owed := [MarkReconnecting];
      }
      settle := Armed(cfg.settleMs);
    }

    /** The link-state part of apply_handover. */
    method ReportLinkState(use: Usable) returns (owed: seq<Action>)
      modifies this`down, this`events
      ensures (View(), owed) == ReportLink(old(View()), use)
    {
      owed := [];
      if !use.Routable? {
        if !down {
          down := true;
          Emit(Down);
          owed := [MarkReconnecting];
        }
      } else if down {
        down := false;
        Emit(Up);
      }
    }

    /** apply_handover from the answer of the transport reset on. */
    method ResetDone(ok: bool) returns (owed: seq<Action>)
      modifies this
      ensures (View(), owed) == ResetAnswered(old(View()), cfg, ok)
    {
      owed := [];
      if !ok {
        attempt := attempt + 1;
        Emit(HandoverFailed(attempt));
        if attempt < cfg.maxAttempts {
          settle := Armed(BackoffMs(attempt));
        } else {
          attempt := 0;
          owed := [AccountsToRetry, FailPendingCalls];
          announced := false;
          handoverStart := 0;
        }
        return;
      }
      attempt := 0;
      resetPending := false;
      force := false;
      announced := false;
      gen := gen + 1;
      Emit(TransportReset);
      owed := [Reregister] + if cfg.reinviteCalls then [MigrateCalls] else [];
    }

    method Apply(use: Usable, ok: bool) returns (owed: seq<Action>)
      modifies this
      ensures (View(), owed) == ApplyHandover(old(View()), cfg, use, ok)
    {
      hide ReportLink, ResetAnswered, BackoffMs;
      owed := ReportLinkState(use);
      if use.NoAddress? {
        settle := Armed(BackoffMs(waitTicks));
        waitTicks := waitTicks + 1;
        return;
      }
      waitTicks := 0;
      var more := ResetDone(ok);
      owed := owed + more;
    }

    method SettleFired(changed: bool, use: Usable, ok: bool) returns (owed: seq<Action>)
      requires Valid() && settle.Armed?
      modifies this
      ensures Valid() && (View(), owed) == SettleFires(old(View()), cfg, changed, use, ok)
    {
      hide Good, ApplyHandover;
      StepKeepsGood(View(), cfg, startedDown, SettleTimer(changed, use, ok));
      settle := Stopped;
      owed := [];
      if changed {
        resetPending := true;
        settle := Armed(cfg.settleMs);
        return;
      }
      if !resetPending && !force { return; }
      owed := Apply(use, ok);
    }
  }
}
