/** Registration recovery: src/account.c, the REG_STATE cases of src/event.c and
  the account hooks of src/netmon.c.

  Four independent drivers (retry timer, registration watchdog, keepalive probe,
  network handover) move one registration state; the functions below are their
  handlers on one account record. */
module Registration {
  import opened History
  import opened Handover

  const WATCH_INTERVAL_MS: nat := 500
  const ACCT_SNAP_MAX: nat := 64

  datatype RegState = Unregistered | Registering | Registered | Unregistering | Reconnecting | RegFailed

  datatype RegError = NoError | AuthError | Server5xx | TransportError | TimeoutError

  /** What tells two RECONNECTING events apart for the app. */
  datatype Signature = Signature(error: RegError, attempt: nat, delay: nat)

  /** A REG_STATE event put on the queue; `prepared` unless the poster bypassed
    vox_account_reg_ev_prepare. */
  datatype RegEvent = RegEvent(state: RegState, sig: Signature, prepared: bool)

  datatype RetryPolicy = RetryPolicy(initialMs: nat, maxMs: nat, backoff: real, maxAttempts: nat)

  datatype RegConfig = RegConfig(keepaliveMs: nat, keepaliveReregister: bool, hostSet: bool, timerFMs: nat, jitter: real)

  datatype Account = Account(
    destroyed: bool,
    ua: bool,
    wanted: bool,
    state: RegState,
    error: RegError,
    reconnecting: bool,
    attempt: nat,
    delay: nat,
    sig: Option<Signature>,
    retry: Timer,
    watch: Timer,
    watchElapsed: nat,
    ka: Timer,
    kaInFlight: bool,
    kaFailed: bool,
    policy: RetryPolicy,
    posts: Log<RegEvent>)

  function NewAccount(policy: RetryPolicy): Account {
    Account(false, true, false, Unregistered, NoError, false, 0, 0, None, Stopped, Stopped, 0, Stopped, false, false,
            policy, Empty)
  }

  /** What one handler asks the outside world: whether ua_register raises
    REGISTERING, whether ua_isregistered, and the random number of the jitter. */
  datatype RegEnv = RegEnv(emits: bool, isRegistered: bool, random: nat)

  // ---------------------------------------------------------------------
  // Backoff and jitter
  // ---------------------------------------------------------------------

  function Scale(delay: nat, backoff: real): nat {
    if backoff <= 0.0 then 0 else (delay as real * backoff).Floor
  }

  /** The backoff loop of vox_account_schedule_retry with `left` rounds to go. */
  function Backoff(delay: nat, maxMs: nat, backoff: real, left: nat): nat
    decreases left
  {
    if left == 0 then delay
    else if Scale(delay, backoff) >= maxMs then maxMs
    else Backoff(Scale(delay, backoff), maxMs, backoff, left - 1)
  }

  function JitterSpan(delay: nat, jitter: real): nat {
    var j := if jitter > 1.0 then 1.0 else jitter;
    if jitter <= 0.0 then 0 else (delay as real * j * 2.0).Floor
  }

  function ApplyJitter(delay: nat, jitter: real, random: nat): nat {
    var span := JitterSpan(delay, jitter);
    if jitter <= 0.0 || delay == 0 || span == 0 then delay
    else
      var offset := random % (span + 1) - span / 2;
      if -offset >= delay then 1 else delay + offset
  }

  function RetryDelay(a: Account, cfg: RegConfig, random: nat): nat {
    ApplyJitter(Backoff(a.policy.initialMs, a.policy.maxMs, a.policy.backoff, a.attempt), cfg.jitter, random)
  }

  // ---------------------------------------------------------------------
  // Event de-duplication
  // ---------------------------------------------------------------------

  function SigOf(a: Account, error: RegError): Signature {
    Signature(error, a.attempt, a.delay)
  }

  /** vox_account_reg_ev_prepare: stamp the event, or say that it repeats what
    the app was told. */
  function Prepare(a: Account, state: RegState, error: RegError): (Account, bool) {
    if !state.Reconnecting? then (a.(sig := None, delay := 0), true)
    else if a.sig == Some(SigOf(a, error)) then (a, false)
    else (a.(sig := Some(SigOf(a, error))), true)
  }

  function Report(a: Account, state: RegState, error: RegError): Account {
    var (b, post) := Prepare(a, state, error);
    if post then b.(posts := Then(b.posts, RegEvent(state, SigOf(b, error), true))) else b
  }

  function ReportRaw(a: Account, state: RegState, error: RegError): Account {
    a.(posts := Then(a.posts, RegEvent(state, Signature(error, 0, 0), false)))
  }

  // ---------------------------------------------------------------------
  // The retry policy
  // ---------------------------------------------------------------------

  predicate BudgetLeft(a: Account) {
    a.policy.maxAttempts == 0 || a.attempt < a.policy.maxAttempts
  }

  predicate WillRetry(a: Account, error: RegError) {
    a.wanted && !a.destroyed && !error.AuthError? && (a.retry.Armed? || BudgetLeft(a))
  }

  /** vox_account_reg_fail_state, with its result stored as every caller does. */
  function FailState(a: Account, error: RegError): Account {
    if WillRetry(a, error) then a.(reconnecting := true, state := Reconnecting, error := error)
    else a.(reconnecting := false, state := RegFailed, error := error)
  }

  /** No attempt is left: a promise that was made is withdrawn. */
  function RecoveryEnds(a: Account): Account {
    if !a.state.Reconnecting? then a.(reconnecting := false)
    else Report(a.(reconnecting := false, state := RegFailed), RegFailed, a.error)
  }

  function ScheduleRetry(a: Account, cfg: RegConfig, random: nat): Account {
    if a.retry.Armed? then a
    else if !BudgetLeft(a) then
      RecoveryEnds(a)
    else
      var d := RetryDelay(a, cfg, random);
      Report(a.(attempt := a.attempt + 1, delay := d, reconnecting := true, state := Reconnecting),
             Reconnecting, a.error).(retry := Armed(d))
  }

  // ---------------------------------------------------------------------
  // baresip's registration events
  // ---------------------------------------------------------------------

  function OnRegistering(a: Account): Account {
    if a.reconnecting then Report(a.(state := Reconnecting), Reconnecting, a.error)
    else ReportRaw(a.(state := Registering), Registering, NoError)
  }

  function OnRegisterOk(a: Account, cfg: RegConfig): Account {
    Report(KeepaliveArm(a.(state := Registered, attempt := 0, reconnecting := false, kaFailed := false, error := NoError),
                        cfg),
           Registered, NoError)
  }

  function OnRegisterFail(a: Account, cfg: RegConfig, error: RegError, random: nat): Account {
    var f := FailState(a, error).(ka := Stopped);
    Report(if error.AuthError? then f else ScheduleRetry(f, cfg, random), f.state, error)
  }

  function OnUnregistering(a: Account): Account {
    Report(a.(state := Unregistering, reconnecting := false), Unregistering, NoError)
  }

  /** ua_register: the REGISTERING event is raised from inside it, or not. */
  function UaRegister(a: Account, emits: bool): Account {
    if emits then OnRegistering(a) else a
  }

  // ---------------------------------------------------------------------
  // Watchdog, retry timer, keepalive
  // ---------------------------------------------------------------------

  function Watch(a: Account): Account {
    if a.destroyed || !a.ua then a else a.(watchElapsed := 0, watch := Armed(WATCH_INTERVAL_MS))
  }

  function WatchFires(a: Account, cfg: RegConfig, e: RegEnv): Account {
    var a := a.(watch := Stopped);
    if a.destroyed || !a.ua || !a.wanted || a.state.Registered? || a.state.RegFailed? || a.retry.Armed? then a
    else if e.isRegistered then
      Report(KeepaliveArm(a.(state := Registered, attempt := 0, reconnecting := false), cfg), Registered, NoError)
    else
      var a := a.(watchElapsed := a.watchElapsed + WATCH_INTERVAL_MS);
      if cfg.timerFMs != 0 && a.watchElapsed >= cfg.timerFMs then
        TimedOut(a, cfg, e.random)
      else
        a.(watch := Armed(WATCH_INTERVAL_MS))
  }

  /** A transaction that timed out: report, and let the policy decide. */
  function TimedOut(a: Account, cfg: RegConfig, random: nat): Account {
    var f := FailState(a, TimeoutError);
    ScheduleRetry(Report(f, f.state, TimeoutError), cfg, random)
  }

  function RetryFires(a: Account, e: RegEnv): Account {
    var a := a.(retry := Stopped);
    if a.destroyed || !a.ua then a else Watch(UaRegister(a, e.emits))
  }

  function KeepaliveArm(a: Account, cfg: RegConfig): Account {
    if a.destroyed || !a.wanted || cfg.keepaliveMs == 0 then a else a.(ka := Armed(cfg.keepaliveMs))
  }

  /** keepalive_handler, from its timer or from voxsdk_account_keepalive_now. */
  function KeepaliveFires(a: Account, cfg: RegConfig, busy: bool, sendOk: bool): Account {
    var a := a.(ka := Stopped);
    if a.destroyed || !a.ua || !a.wanted || a.kaInFlight then a
    else if busy then KeepaliveArm(a, cfg)
    else if !cfg.hostSet then a
    else if sendOk then a.(kaInFlight := true)
    else KeepaliveArm(a, cfg)
  }

  function ProbeAnswered(a: Account, cfg: RegConfig, e: RegEnv): Account {
    if a.destroyed then a
    else
      var a := a.(kaInFlight := false);
      if a.kaFailed && a.state.Reconnecting? && e.isRegistered then
        KeepaliveArm(Report(a.(kaFailed := false, state := Registered, error := NoError, attempt := 0, reconnecting := false),
                            Registered, NoError), cfg)
      else
        KeepaliveArm(a.(kaFailed := false), cfg)
  }

  function ProbeLost(a: Account, cfg: RegConfig, e: RegEnv): Account {
    if a.destroyed then a
    else
      var a := a.(kaInFlight := false, kaFailed := true, error := TimeoutError);
      if cfg.keepaliveReregister && a.wanted then
        TimedOut(a, cfg, e.random)
      else
        KeepaliveArm(LossReported(a), cfg)
  }

  /** A lost probe of an account that is not to re-register for it. */
  function LossReported(a: Account): Account {
    var f := a.(state := if a.wanted then Reconnecting else RegFailed, reconnecting := a.wanted);
    Report(f, f.state, TimeoutError)
  }

  // ---------------------------------------------------------------------
  // The application's requests
  // ---------------------------------------------------------------------

  function Register(a: Account, e: RegEnv): Account {
    if !a.ua then a else Watch(UaRegister(a.(wanted := true, reconnecting := false), e.emits))
  }

  function Unregister(a: Account): Account {
    if !a.ua then a
    else
      a.(wanted := false, reconnecting := false, kaFailed := false, state := Unregistering, watch := Stopped, ka := Stopped)
  }

  function CancelRetry(a: Account): Account {
    var a := a.(retry := Stopped, watch := Stopped, attempt := 0);
    if !a.state.Reconnecting? then a
    else ReportRaw(a.(reconnecting := false, state := RegFailed), RegFailed, a.error)
  }

  function RetryNow(a: Account, e: RegEnv): Account {
    var a := a.(retry := Stopped, attempt := 0);
    if a.destroyed || !a.ua then a else Watch(UaRegister(a.(wanted := true), e.emits))
  }

  /** set_push_token_fn: re-registers when nothing is in flight, unwatched. */
  function PushToken(a: Account, e: RegEnv): Account {
    if a.ua && !(a.state.Registering? || a.state.Unregistering? || a.state.Reconnecting?) && !a.retry.Armed? then
      UaRegister(a, e.emits)
    else a
  }

  // ---------------------------------------------------------------------
  // What a network handover does to an account
  // ---------------------------------------------------------------------

  function MarkLost(a: Account): Account {
    if a.destroyed || !a.wanted || !(a.state.Registered? || a.state.Registering?) then a
    else Report(a.(reconnecting := true, state := Reconnecting, ka := Stopped), Reconnecting, NoError)
  }

  function Rebind(a: Account, e: RegEnv): Account {
    if a.state.RegFailed? && a.error.AuthError? then a
    else Watch(UaRegister(a.(retry := Stopped, attempt := 0, reconnecting := true), e.emits))
  }

  function HandToRetry(a: Account, cfg: RegConfig, e: RegEnv): Account {
    if a.state.Reconnecting? then ScheduleRetry(a, cfg, e.random) else a
  }

  function AccountAction(a: Account, cfg: RegConfig, act: Action, e: RegEnv): Account {
    match act
    case MarkReconnecting => MarkLost(a)
    case AccountsToRetry => HandToRetry(a, cfg, e)
    case Reregister => Rebind(a, e)
    case _ => a
  }

  /** The accounts a snapshot collects. */
  predicate Eligible(a: Account) {
    !a.destroyed && a.ua && a.wanted
  }

  /** One action on the first `room` eligible accounts, each with its own answers;
    `from` is the first account's place in the list. */
  function OnSnapshot(
    accts: seq<Account>, from: nat, room: nat, cfg: RegConfig, act: Action, envs: nat -> RegEnv): (r: seq<Account>)
    ensures |r| == |accts|
  {
    if accts == [] then []
    else if Eligible(accts[0]) && room > 0 then
      [AccountAction(accts[0], cfg, act, envs(from))] + OnSnapshot(accts[1..], from + 1, room - 1, cfg, act, envs)
    else
      [accts[0]] + OnSnapshot(accts[1..], from + 1, room, cfg, act, envs)
  }

  function OnActions(accts: seq<Account>, cfg: RegConfig, acts: seq<Action>, envs: nat -> RegEnv): (r: seq<Account>)
    ensures |r| == |accts|
    decreases |acts|
  {
    if acts == [] then accts
    else OnActions(OnSnapshot(accts, 0, ACCT_SNAP_MAX, cfg, acts[0], envs), cfg, acts[1..], envs)
  }

  // ---------------------------------------------------------------------
  // Runs
  // ---------------------------------------------------------------------

  datatype RegSystem = RegSystem(mon: Monitor, accts: seq<Account>)

  datatype AccountInput =
    | AppRegister
    | AppUnregister
    | AppCancelRetry
    | AppRetryNow
    | AppPushToken
    | AppSetPolicy(policy: RetryPolicy)
    | AppKeepaliveNow(busy: bool, sendOk: bool)
    | AppDestroy
    | RegisterOk
    | RegisterFail(error: RegError)
    | UnregisteringSeen
    | RetryTimer
    | WatchTimer
    | KeepaliveTimer(busy: bool, sendOk: bool)
    | ProbeOk
    | ProbeTimeout

  /** Timers act only while armed, an answer only while a probe is out. */
  function AccountStep(a: Account, cfg: RegConfig, input: AccountInput, e: RegEnv): Account {
    match input
    case AppRegister => Register(a, e)
    case AppUnregister => Unregister(a)
    case AppCancelRetry => CancelRetry(a)
    case AppRetryNow => RetryNow(a, e)
    case AppPushToken => PushToken(a, e)
    case AppSetPolicy(policy) => a.(policy := policy)
    case AppKeepaliveNow(busy, ok) => if Eligible(a) then KeepaliveFires(a, cfg, busy, ok) else a
    case AppDestroy => a.(destroyed := true)
    case RegisterOk => OnRegisterOk(a, cfg)
    case RegisterFail(error) => OnRegisterFail(a, cfg, error, e.random)
    case UnregisteringSeen => OnUnregistering(a)
    case RetryTimer => if a.retry.Armed? then RetryFires(a, e) else a
    case WatchTimer => if a.watch.Armed? then WatchFires(a, cfg, e) else a
    case KeepaliveTimer(busy, ok) => if a.ka.Armed? then KeepaliveFires(a, cfg, busy, ok) else a
    case ProbeOk => if a.kaInFlight then ProbeAnswered(a, cfg, e) else a
    case ProbeTimeout => if a.kaInFlight then ProbeLost(a, cfg, e) else a
  }

  datatype RegInput =
    | AccountCreated(policy: RetryPolicy)
    | OnAccount(i: nat, input: AccountInput, env: RegEnv)
    | OnNetwork(net: Input, envs: nat -> RegEnv)

  function RegStep(s: RegSystem, cfg: RegConfig, net: Config, input: RegInput): RegSystem {
    match input
    case AccountCreated(policy) => s.(accts := s.accts + [NewAccount(policy)])
    case OnAccount(i, ai, e) =>
      if i < |s.accts| then s.(accts := s.accts[i := AccountStep(s.accts[i], cfg, ai, e)]) else s
    case OnNetwork(ni, envs) =>
      var (mon, owed) := Step(s.mon, net, ni);
      RegSystem(mon, OnActions(s.accts, cfg, owed, envs))
  }

  function RegRun(cfg: RegConfig, net: Config, down: bool, inputs: Log<RegInput>): RegSystem {
    match inputs
    case Empty => RegSystem(Init(down), [])
    case Then(past, i) => RegStep(RegRun(cfg, net, down, past), cfg, net, i)
  }
}
