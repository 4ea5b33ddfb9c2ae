/** The per-call repair machine of src/netmon.c and the shared verify timer.

  A call is claimed for a repair round either by a completed handover or by a
  media stall.  The functions below are the handlers as state transformers; the
  classes in RepairClasses.dfy run them in place and are proved against them. */
module Migration {
  import opened History
  import opened Handover

  const SNAP_MAX: nat := 64
  const MAX_CAND: nat := 4
  const STALL_VERIFY_MS: nat := 1500
  const STALL_COOLDOWN_MS: nat := 10000
  const STALL_ATTEMPTS: nat := 3
  const STALL_ROUNDS: nat := 3
  const RESTART_DEADLINE_MS: nat := 3000
  const TICK_SLACK_MS: nat := 100

  datatype Addr = Addr(af: nat, host: nat)

  datatype MigState = Idle | Stalled | WaitAddr | Deferred | Sent | Done | Failed

  datatype RepairConfig = RepairConfig(
    net: Config, verifyMs: nat, hangupOnFail: bool, failFast: bool, gatherMs: nat)

  predicate ValidRepairConfig(cfg: RepairConfig) {
    ValidConfig(cfg.net)
  }

  /** The answers of vox_ice_restart: 0, EALREADY, ENOENT, anything else. */
  datatype RestartAnswer = Restarted | AlreadyRestarting | NoIce | RestartError

  /** Everything a handler asks baresip, the kernel and the clock about one
    call.  A handler runs atomically, so each question has one answer in it. */
  datatype Env = Env(
    now: nat,
    stream: bool,
    peerKnown: bool,
    route: Option<Addr>,
    current: Option<Addr>,
    overWs: bool,
    locals: seq<Addr>,
    refreshable: bool,
    ice: bool,
    restart: RestartAnswer,
    resetOk: bool,
    rx: nat,
    onHold: bool,
    localHold: bool)

  /** One offer as an observer beside the call would note it: its number, the
    packets received by then, the time, whether an ICE restart carries it, and
    the address it is made from. */
  datatype OfferSeen = OfferSeen(tries: nat, rx: nat, at: nat, byRestart: bool, laddr: Option<Addr>)

  datatype CallEvent =
    | Claimed(stall: bool, at: nat)
    | CallDeferred
    | Migrating(offer: OfferSeen)
    | IceStale
    | Accepted
    | Migrated
    | MigrationFailed
    | HungUp

  datatype Call = Call(
    live: bool,
    gen: nat,
    state: MigState,
    tries: nat,
    due: nat,
    stall: bool,
    restarted: bool,
    staleSent: bool,
    pathMoved: bool,
    laddr: Option<Addr>,
    tried: seq<Addr>,
    rxAtMig: nat,
    start: nat,
    stallAt: nat,
    stallRounds: nat,
    trace: Log<CallEvent>)

  const FRESH_CALL: Call :=
    Call(true, 0, Idle, 0, 0, false, false, false, false, None, [], 0, 0, 0, 0, Empty)

  function Tell(c: Call, e: CallEvent): Call {
    c.(trace := Then(c.trace, e))
  }

  /** Not yet offered, and waiting for something other than media. */
  predicate Waiting(s: MigState) {
    s.Stalled? || s.WaitAddr? || s.Deferred?
  }

  /** Still owed a verdict. */
  predicate Pending(s: MigState) {
    Waiting(s) || s.Sent?
  }

  predicate Terminal(s: MigState) {
    s.Done? || s.Failed?
  }

  function Min(a: nat, b: nat): nat {
    if a < b then a else b
  }

  // ---------------------------------------------------------------------
  // Budgets and clocks
  // ---------------------------------------------------------------------

  function StallBudget(cfg: RepairConfig): nat {
    Min(cfg.net.maxAttempts, STALL_ATTEMPTS)
  }

  function MaxAttemptsFor(c: Call, cfg: RepairConfig, e: Env): nat {
    if c.stall then StallBudget(cfg)
    else if cfg.failFast && e.ice && !c.restarted then 1
    else cfg.net.maxAttempts
  }

  function VerifyTickMs(cfg: RepairConfig): nat {
    var ms := if cfg.verifyMs != 0 then cfg.verifyMs else 2000;
    if ms < 500 then 500 else ms
  }

  function VerifyTickFor(stall: bool, cfg: RepairConfig): nat {
    if cfg.verifyMs == 0 || !stall then VerifyTickMs(cfg)
    else Min(STALL_VERIFY_MS, VerifyTickMs(cfg))
  }

  function RestartGraceMs(cfg: RepairConfig): nat {
    if cfg.gatherMs != 0 then cfg.gatherMs else RESTART_DEADLINE_MS
  }

  // ---------------------------------------------------------------------
  // Local-address rotation
  // ---------------------------------------------------------------------

  function Remember(c: Call): Call {
    if c.laddr.None? || c.laddr.value in c.tried || |c.tried| >= MAX_CAND then c
    else c.(tried := c.tried + [c.laddr.value])
  }

  predicate Rotates(c: Call) {
    c.tries >= if c.stall then 1 else 2
  }

  /** The first local address of family `af` outside `tried`. */
  function Pick(locals: seq<Addr>, af: nat, tried: seq<Addr>): Option<Addr> {
    if locals == [] then None
    else if locals[0].af == af && locals[0] !in tried then Some(locals[0])
    else Pick(locals[1..], af, tried)
  }

  /** next_laddr: once every address has had its turn the record is cleared. */
  function NextLaddr(tried: seq<Addr>, af: nat, locals: seq<Addr>): (seq<Addr>, Option<Addr>) {
    var p := Pick(locals, af, tried);
    if p.Some? then (tried, p) else ([], Pick(locals, af, []))
  }

  // ---------------------------------------------------------------------
  // Handlers
  // ---------------------------------------------------------------------

  function FailCall(c: Call, cfg: RepairConfig): Call {
    var f := Tell(c.(state := Failed), MigrationFailed);
    if cfg.hangupOnFail && c.live then Tell(f, HungUp) else f
  }

  /** The plain re-offer at the end of send_migration. */
  function Reoffer(c: Call, cfg: RepairConfig, e: Env): Call {
    if !e.resetOk then
      if c.tries >= MaxAttemptsFor(c, cfg, e) then FailCall(c, cfg) else c.(state := Deferred)
    else
      var s := Tell(c.(state := Sent, due := e.now + VerifyTickFor(c.stall, cfg)),
                    Migrating(OfferSeen(c.tries, e.rx, e.now, false, c.laddr)));
      if cfg.verifyMs == 0 then Tell(s.(state := Done), Migrated) else s
  }

  function Send(c: Call, cfg: RepairConfig, e: Env): Call {
    if !c.live then
      c.(state := Idle)
    else if !e.refreshable then
      if c.state.Deferred? then c else Tell(c.(state := Deferred), CallDeferred)
    else
      Attempt(Remember(c.(rxAtMig := e.rx, tries := c.tries + 1)), cfg, e)
  }

  /** The attempt proper: an ICE restart when the path moved, else a re-offer. */
  function Attempt(c: Call, cfg: RepairConfig, e: Env): Call {
    if c.pathMoved && (e.restart.Restarted? || e.restart.AlreadyRestarting?) then
      Tell(c.(restarted := true, state := Sent,
              due := e.now + RestartGraceMs(cfg) + VerifyTickFor(c.stall, cfg)),
           Migrating(OfferSeen(c.tries, e.rx, e.now, true, c.laddr)))
    else if c.pathMoved && e.restart.RestartError? && !c.staleSent then
      Reoffer(Tell(c.(staleSent := true), IceStale), cfg, e)
    else
      Reoffer(c, cfg, e)
  }

  /** The address a retry offers from, and the record of tried ones after it. */
  function Rotate(c: Call, e: Env): Call {
    var c := Remember(c);
    if Rotates(c) && c.laddr.Some? then
      var (tried, next) := NextLaddr(c.tried, c.laddr.value.af, e.locals);
      if next.Some? && next != c.laddr then c.(tried := tried, laddr := next) else c.(tried := tried)
    else c
  }

  function Retry(c: Call, cfg: RepairConfig, e: Env): Call {
    Send(Rotate(c, e), cfg, e)
  }

  function WaitForAddr(c: Call): Call {
    if c.state.WaitAddr? then c else Tell(c.(state := WaitAddr), CallDeferred)
  }

  /** The reset of the per-round fields, shared by both kinds of claim. */
  function Claim(c: Call, gen: nat, stall: bool, start: nat, now: nat): Call {
    Tell(c.(gen := gen, tries := 0, due := 0, staleSent := false, restarted := false, pathMoved := false,
            stall := stall, tried := [], start := start, laddr := None),
         Claimed(stall, now))
  }

  function Start(c: Call, cfg: RepairConfig, gen: nat, handoverStart: nat, e: Env): Call {
    if !c.live then
      c.(state := Idle)
    else
      Locate(if c.gen == gen then c
             else Claim(c, gen, false, if handoverStart != 0 then handoverStart else e.now, e.now),
             cfg, e)
  }

  /** start_migration on a claimed call: find an address to offer from. */
  function Locate(c: Call, cfg: RepairConfig, e: Env): Call {
    if !e.stream || !e.peerKnown || e.route.None? then
      WaitForAddr(c)
    else
      var route := e.route.value;
      var (tried, next) :=
        if Rotates(c) && route in c.tried then NextLaddr(c.tried, route.af, e.locals) else (c.tried, None);
      Offer(c.(tried := tried), cfg, if next.Some? then next.value else route, e)
  }

  /** The end of start_migration, with the source address decided. */
  function Offer(c: Call, cfg: RepairConfig, laddr: Addr, e: Env): Call {
    var samePath := e.current == Some(laddr);
    if samePath && !e.overWs && !c.stall then
      c.(state := Idle)
    else
      Send(c.(pathMoved := c.pathMoved || c.stall || !samePath, laddr := Some(laddr)), cfg, e)
  }

  /** A SENT offer that is still in flight, or still being gathered. */
  predicate TooEarly(c: Call, e: Env) {
    c.state.Sent? && c.due != 0 && e.now + TICK_SLACK_MS < c.due
  }

  function Judge(c: Call, cfg: RepairConfig, e: Env): Call {
    if cfg.verifyMs == 0 || e.onHold || e.rx > c.rxAtMig then
      Tell(c.(state := Done), Migrated)
    else if c.tries >= MaxAttemptsFor(c, cfg, e) then
      FailCall(c, cfg)
    else
      Retry(c, cfg, e)
  }

  /** One call's turn in verify_handler. */
  function Tick(c: Call, cfg: RepairConfig, gen: nat, handoverStart: nat, e: Env): Call {
    if c.gen != gen then c
    else if !c.live then c.(state := Idle)
    else match c.state
      case Stalled => Start(c, cfg, gen, handoverStart, e)
      case WaitAddr =>
        var c := c.(tries := c.tries + 1);
        if c.tries >= cfg.net.maxAttempts then FailCall(c, cfg) else Start(c, cfg, gen, handoverStart, e)
      case Deferred =>
        if e.refreshable then Send(c, cfg, e)
        else
          var c := c.(tries := c.tries + 1);
          if c.tries >= cfg.net.maxAttempts then FailCall(c, cfg) else c
      case Sent => if TooEarly(c, e) then c else Judge(c, cfg, e)
      case _ => c
  }

  /** Whether a stall report starts a repair round. */
  predicate StallAdmitted(c: Call, gen: nat, e: Env) {
    && c.live
    && !(c.gen == gen && Pending(c.state))
    && !e.onHold && !e.localHold
    && !(c.stallAt != 0 && c.stallAt <= e.now && e.now - c.stallAt < STALL_COOLDOWN_MS)
    && c.stallRounds < STALL_ROUNDS
  }

  function StallReport(c: Call, gen: nat, e: Env): Call {
    if !StallAdmitted(c, gen, e) then c
    else
      Claim(c.(stallAt := e.now, stallRounds := c.stallRounds + 1), gen, true, e.now, e.now).(state := Stalled)
  }

  /** One call's turn in fail_pending_migrations. */
  function FailIfOwed(c: Call, cfg: RepairConfig, handoverStart: nat): Call {
    if !c.live || Terminal(c.state) then c
    else FailCall(if c.start == 0 then c.(start := handoverStart) else c, cfg)
  }

  // ---------------------------------------------------------------------
  // All calls and the shared verify timer
  // ---------------------------------------------------------------------

  datatype Netmon = Netmon(mon: Monitor, calls: seq<Call>, verify: Timer)

  /** The most impatient pending call of the snapshot, if any is pending. */
  function PendingTick(calls: seq<Call>, gen: nat, cfg: RepairConfig): Option<nat> {
    if calls == [] then None
    else
      var n := |calls| - 1;
      var rest := PendingTick(calls[..n], gen, cfg);
      var c := calls[n];
      if c.gen != gen || !Pending(c.state) then rest
      else
        var t := Min(VerifyTickMs(cfg), VerifyTickFor(c.stall, cfg));
        Some(if rest.Some? then Min(rest.value, t) else t)
  }

  function Snapshot(calls: seq<Call>): seq<Call> {
    calls[..Min(|calls|, SNAP_MAX)]
  }

  function ArmVerify(calls: seq<Call>, gen: nat, cfg: RepairConfig, verify: Timer): Timer {
    match PendingTick(Snapshot(calls), gen, cfg)
    case None => verify
    case Some(ms) => Armed(ms)
  }

  function TickAll(calls: seq<Call>, cfg: RepairConfig, gen: nat, hs: nat, envs: nat -> Env): (r: seq<Call>)
    ensures |r| == |calls|
  {
    seq(|calls|, i requires 0 <= i < |calls| =>
      if i < SNAP_MAX then Tick(calls[i], cfg, gen, hs, envs(i)) else calls[i])
  }

  function StartAll(calls: seq<Call>, cfg: RepairConfig, gen: nat, hs: nat, envs: nat -> Env): (r: seq<Call>)
    ensures |r| == |calls|
  {
    seq(|calls|, i requires 0 <= i < |calls| =>
      if i < SNAP_MAX then Start(calls[i], cfg, gen, hs, envs(i)) else calls[i])
  }

  function FailAll(calls: seq<Call>, cfg: RepairConfig, hs: nat): (r: seq<Call>)
    ensures |r| == |calls|
  {
    seq(|calls|, i requires 0 <= i < |calls| =>
      if i < SNAP_MAX then FailIfOwed(calls[i], cfg, hs) else calls[i])
  }

  /** What the call side does with the actions of the handover machine. */
  function Perform(n: Netmon, cfg: RepairConfig, mon: Monitor, owed: seq<Action>, envs: nat -> Env): Netmon {
    if FailPendingCalls in owed then
      Netmon(mon, FailAll(n.calls, cfg, n.mon.handoverStart), n.verify)
    else if MigrateCalls in owed then
      var calls := StartAll(n.calls, cfg, mon.gen, n.mon.handoverStart, envs);
      Netmon(mon, calls, ArmVerify(calls, mon.gen, cfg, n.verify))
    else
      n.(mon := mon)
  }

  datatype RepairInput =
    | NewCall
    | CallClosed(i: nat)
    | CallRemoved(i: nat)
    | Network(net: Input, envs: nat -> Env)
    | VerifyTimer(envs: nat -> Env)
    | StallReported(i: nat, env: Env)
    | CallRefreshable(i: nat)
    | SdpAnswered(i: nat)

  function RepairStep(n: Netmon, cfg: RepairConfig, input: RepairInput): Netmon {
    match input
    case NewCall => n.(calls := n.calls + [FRESH_CALL])
    case CallClosed(i) =>
      if i < |n.calls| then n.(calls := n.calls[i := n.calls[i].(live := false)]) else n
    case CallRemoved(i) =>
      if i < |n.calls| then n.(calls := n.calls[..i] + n.calls[i + 1..]) else n
    case Network(net, envs) =>
      var (mon, owed) := Step(n.mon, cfg.net, net);
      Perform(n, cfg, mon, owed, envs)
    case VerifyTimer(envs) =>
      if n.verify.Stopped? then n
      else
        var calls := TickAll(n.calls, cfg, n.mon.gen, n.mon.handoverStart, envs);
        n.(calls := calls, verify := ArmVerify(calls, n.mon.gen, cfg, Stopped))
    case StallReported(i, e) =>
      if i < |n.calls| && StallAdmitted(n.calls[i], n.mon.gen, e) then
        n.(calls := n.calls[i := StallReport(n.calls[i], n.mon.gen, e)], verify := Armed(1))
      else n
    case CallRefreshable(i) =>
      if i < |n.calls| && n.calls[i].state.Deferred? && n.calls[i].gen == n.mon.gen then n.(verify := Armed(1)) else n
    case SdpAnswered(i) =>
      if i < |n.calls| && n.calls[i].state.Sent? && n.calls[i].gen == n.mon.gen then
        n.(calls := n.calls[i := Tell(n.calls[i], Accepted)])
      else n
  }

  function RepairRun(cfg: RepairConfig, down: bool, inputs: Log<RepairInput>): Netmon {
    match inputs
    case Empty => Netmon(Init(down), [], Stopped)
    case Then(past, i) => RepairStep(RepairRun(cfg, down, past), cfg, i)
  }
}
